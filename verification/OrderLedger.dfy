/** One order with its fills and its transition log: `transition` and `apply_fill` of
    server/app/repositories/orders_repo.py on the rows they touch, and what deliveries of fills add up to. */
module OrderLedger {
  import opened OrderStates
  import opened Permutations
  import opened Reals
  import opened Wrappers

  datatype Fill = Fill(eventSeq: string, qty: real, price: real, remaining: Option<real>)

  datatype Relation = New | Modify | Cancel

  /** An order row together with its rows in `fills` and `order_state_transitions`; `inserted` is the status the
      row was created with. */
  datatype Row = Row(
    key: string, account: Option<nat>, market: string, symbol: string, relation: Relation,
    qty: real, price: Option<real>, status: OrderState, brokerId: Option<string>,
    filledQty: real, remaining: Option<real>, avgPrice: Option<real>,
    inserted: OrderState, fills: seq<Fill>, log: seq<Entry>)

  function NewRow(key: string, account: Option<nat>, market: string, symbol: string, relation: Relation, qty: real,
                  price: Option<real>, status: OrderState, brokerId: Option<string>): Row
  {
    Row(key, account, market, symbol, relation, qty, price, status, brokerId, 0.0, None, None, status, [], [])
  }

  function SumQty(fills: seq<Fill>): real {
    if fills == [] then 0.0 else SumQty(fills[..|fills| - 1]) + fills[|fills| - 1].qty
  }

  function Value(f: Fill): real { f.qty * f.price }

  function SumValue(fills: seq<Fill>): real {
    if fills == [] then 0.0 else SumValue(fills[..|fills| - 1]) + Value(fills[|fills| - 1])
  }

  predicate HasEvent(fills: seq<Fill>, eventSeq: string) {
    exists i :: 0 <= i < |fills| && fills[i].eventSeq == eventSeq
  }

  /** The row after a legal status change; None when the state machine refuses it. */
  function Transition(row: Row, to: OrderState): Option<Row> {
    if !CanTransition(row.status, to) then None
    else Some(row.(status := to, log := row.log + [Entry(row.status, to)]))
  }

  /** What is left of the order after `fills`: the last fill's report if it has one, else quantity minus fills. */
  function Remaining(qty: real, fills: seq<Fill>): real
    requires fills != []
  {
    var last := fills[|fills| - 1];
    if last.remaining.Some? then last.remaining.value
    else if qty - SumQty(fills) > 0.0 then qty - SumQty(fills) else 0.0
  }

  /** The status the fills call for. */
  function Target(row: Row, fills: seq<Fill>): OrderState
    requires fills != []
  {
    var filled := SumQty(fills);
    if Remaining(row.qty, fills) <= 0.0 && filled > 0.0 then Filled
    else if filled > 0.0 then PartiallyFilled
    else row.status
  }

  /** `apply_fill`: terminal orders and known events are ignored, otherwise store, re-aggregate, move on. */
  function ApplyFill(row: Row, f: Fill): Row {
    if Terminal(row.status) || HasEvent(row.fills, f.eventSeq) then row
    else
      var fills := row.fills + [f];
      var filled := SumQty(fills);
      var stored := row.(fills := fills, filledQty := filled, remaining := Some(Remaining(row.qty, fills)),
                         avgPrice := if filled != 0.0 then Some(SumValue(fills) / filled) else None);
      var to := Target(row, fills);
      if to != row.status && CanTransition(row.status, to)
      then stored.(status := to, log := row.log + [Entry(row.status, to)])
      else stored
  }

  // ----- the ledger invariant -----

  ghost predicate DistinctEvents(fills: seq<Fill>) {
    forall i, j :: 0 <= i < j < |fills| ==> fills[i].eventSeq != fills[j].eventSeq
  }

  ghost predicate Positive(fills: seq<Fill>) {
    forall i :: 0 <= i < |fills| ==> fills[i].qty > 0.0
  }

  /** The aggregates are exactly those of the stored fills, the log is a legal history of the row, and the
      working states say whether there are fills. */
  ghost predicate RowInv(row: Row) {
    && Chain(row.inserted, row.log, row.status)
    && DistinctEvents(row.fills) && Positive(row.fills)
    && row.filledQty == SumQty(row.fills)
    && (row.fills == [] <==> row.avgPrice.None?)
    && (row.avgPrice.Some? ==> row.avgPrice.value * row.filledQty == SumValue(row.fills))
    && (row.status.Accepted? ==> row.fills == [])
    && (row.status.PartiallyFilled? || row.status.Filled? ==> row.fills != [])
  }

  lemma {:induction false} SumPositive(fills: seq<Fill>)
    requires Positive(fills)
    ensures SumQty(fills) >= 0.0 && (fills != [] ==> SumQty(fills) > 0.0)
  {
    if fills != [] {
      SumPositive(fills[..|fills| - 1]);
    }
  }

  lemma PushDistinct(fills: seq<Fill>, f: Fill)
    requires DistinctEvents(fills) && Positive(fills) && !HasEvent(fills, f.eventSeq) && f.qty > 0.0
    ensures DistinctEvents(fills + [f]) && Positive(fills + [f])
  {
  }

  /** Applying a fill keeps the ledger right, from any state in which the broker can report one. */
  lemma ApplyFillKeeps(row: Row, f: Fill)
    requires RowInv(row) && f.qty > 0.0
    requires row.status.Accepted? || row.status.PartiallyFilled? || Terminal(row.status)
    ensures RowInv(ApplyFill(row, f))
  {
    hide SumQty, SumValue, Chain, DistinctEvents, Positive, HasEvent, Remaining;
    if !Terminal(row.status) && !HasEvent(row.fills, f.eventSeq) {
      var fills := row.fills + [f];
      PushDistinct(row.fills, f);
      SumPositive(fills);
      QuotientTimes(SumValue(fills), SumQty(fills));
      var to := Target(row, fills);
      if to != row.status {
        ChainExtends(row.inserted, row.log, row.status, to);
      }
    }
  }

  lemma TransitionKeeps(row: Row, to: OrderState)
    requires RowInv(row) && CanTransition(row.status, to)
    requires to.Accepted? ==> row.fills == []
    requires to.PartiallyFilled? || to.Filled? ==> row.fills != []
    ensures RowInv(Transition(row, to).value)
  {
    hide SumQty, SumValue, Chain, DistinctEvents, Positive;
    ChainExtends(row.inserted, row.log, row.status, to);
  }

  // ----- deliveries -----

  function Deliver(row: Row, fills: seq<Fill>): Row {
    if fills == [] then row else ApplyFill(Deliver(row, fills[..|fills| - 1]), fills[|fills| - 1])
  }

  /** The first delivery of every event. */
  function Firsts(fills: seq<Fill>): seq<Fill> {
    if fills == [] then []
    else
      var before := Firsts(fills[..|fills| - 1]);
      if HasEvent(before, fills[|fills| - 1].eventSeq) then before else before + [fills[|fills| - 1]]
  }

  lemma {:induction false} FirstsAre(fills: seq<Fill>)
    ensures DistinctEvents(Firsts(fills))
    ensures forall f <- Firsts(fills) :: f in fills
    ensures forall f <- fills :: HasEvent(Firsts(fills), f.eventSeq)
  {
    if fills != [] {
      var n := |fills| - 1;
      FirstsAre(fills[..n]);
      assert fills == fills[..n] + [fills[n]];
      var before := Firsts(fills[..n]);
      forall f | f in fills ensures HasEvent(Firsts(fills), f.eventSeq) {
        if f in fills[..n] && !HasEvent(before, fills[n].eventSeq) {
          var i :| 0 <= i < |before| && before[i].eventSeq == f.eventSeq;
          assert (before + [fills[n]])[i].eventSeq == f.eventSeq;
        }
        if f == fills[n] && !HasEvent(before, f.eventSeq) {
          assert (before + [fills[n]])[|before|].eventSeq == f.eventSeq;
        }
      }
    }
  }

  /** An event names one execution: deliveries of the same event carry the same fill. */
  ghost predicate EventsNameFills(fills: seq<Fill>) {
    forall f <- fills, g <- fills :: f.eventSeq == g.eventSeq ==> f == g
  }

  ghost predicate FromStream(fills: seq<Fill>) {
    && EventsNameFills(fills) && Positive(fills)
    && forall f <- fills :: f.remaining.None?
  }

  lemma {:induction false} PrefixSum(fills: seq<Fill>, n: nat)
    requires n <= |fills| && Positive(fills)
    ensures SumQty(fills[..n]) <= SumQty(fills)
    decreases |fills|
  {
    if n == |fills| {
      assert fills[..n] == fills;
    } else {
      var m := |fills| - 1;
      PrefixSum(fills[..m], n);
      assert fills[..m][..n] == fills[..n];
    }
  }

  lemma FirstsPrefix(fills: seq<Fill>)
    requires fills != [] && Positive(fills)
    ensures Positive(Firsts(fills)) && Positive(Firsts(fills[..|fills| - 1]))
    ensures SumQty(Firsts(fills[..|fills| - 1])) <= SumQty(Firsts(fills))
  {
    FirstsAre(fills);
    FirstsAre(fills[..|fills| - 1]);
    var before, all := Firsts(fills[..|fills| - 1]), Firsts(fills);
    PrefixSum(all, |before|);
    assert all[..|before|] == before;
  }

  /** The row an accepted order has become once `fills` are stored and nothing was reported about the rest. */
  function Settled(row: Row, fills: seq<Fill>): Row {
    if fills == [] then row
    else
      var filled := SumQty(fills);
      row.(fills := fills, filledQty := filled, remaining := Some(row.qty - filled),
           avgPrice := Some(if filled != 0.0 then SumValue(fills) / filled else 0.0),
           status := if filled < row.qty then PartiallyFilled else Filled,
           log := row.log + if filled < row.qty then [Entry(Accepted, PartiallyFilled)]
                            else if |fills| == 1 then [Entry(Accepted, Filled)]
                            else [Entry(Accepted, PartiallyFilled), Entry(PartiallyFilled, Filled)])
  }

  lemma SettledStep(row: Row, before: seq<Fill>, f: Fill)
    requires row.status.Accepted? && row.fills == []
    requires Positive(before + [f]) && f.remaining.None? && SumQty(before + [f]) <= row.qty
    ensures ApplyFill(Settled(row, before), f)
         == if HasEvent(before, f.eventSeq) then Settled(row, before) else Settled(row, before + [f])
  {
    assert (before + [f])[..|before|] == before;
    SumPositive(before + [f]);
    assert SumQty(before + [f]) == SumQty(before) + f.qty && f.qty > 0.0 by {
      assert (before + [f])[|before|] == f;
    }
    assert Positive(before) by {
      forall i | 0 <= i < |before| ensures before[i].qty > 0.0 { assert (before + [f])[i] == before[i]; }
    }
    SumPositive(before);
    hide SumQty, SumValue, Positive, HasEvent;
    if before == [] {
      assert row.fills + [f] == [f] == before + [f];
    } else {
      assert row.log + [Entry(Accepted, PartiallyFilled)] + [Entry(PartiallyFilled, Filled)]
        == row.log + [Entry(Accepted, PartiallyFilled), Entry(PartiallyFilled, Filled)];
    }
  }

  /** Whatever the duplicates, an accepted order ends up holding each streamed fill once, in order of first arrival. */
  lemma {:induction false} DeliverStores(row: Row, fills: seq<Fill>)
    requires row.status.Accepted? && row.fills == []
    requires FromStream(fills) && SumQty(Firsts(fills)) <= row.qty
    ensures Deliver(row, fills) == Settled(row, Firsts(fills))
  {
    hide SumQty, ApplyFill, Settled, HasEvent;
    SettledNothing(row);
    if fills != [] {
      var n := |fills| - 1;
      var f := fills[n];
      var before := Firsts(fills[..n]);
      FirstsPrefix(fills);
      DeliverStores(row, fills[..n]);
      if HasEvent(before, f.eventSeq) {
        AlreadyStored(row, before, f);
      } else {
        assert Firsts(fills) == before + [f];
        SettledStep(row, before, f);
      }
    }
  }

  lemma SettledNothing(row: Row)
    ensures Settled(row, []) == row
  {
  }

  lemma AlreadyStored(row: Row, before: seq<Fill>, f: Fill)
    requires row.fills == [] && HasEvent(before, f.eventSeq)
    ensures ApplyFill(Settled(row, before), f) == Settled(row, before)
  {
    hide SumQty, SumValue;
  }

  // ----- order of delivery -----

  lemma {:induction false} DistinctAsSet(fills: seq<Fill>)
    requires DistinctEvents(fills)
    ensures multiset(fills) == multiset(set f | f in fills)
  {
    if fills == [] {
    } else {
      var n := |fills| - 1;
      DistinctAsSet(fills[..n]);
      assert fills == fills[..n] + [fills[n]];
      assert fills[n] !in fills[..n];
      assert (set f | f in fills) == (set f | f in fills[..n]) + {fills[n]};
    }
  }

  lemma FirstsSameSet(a: seq<Fill>, b: seq<Fill>)
    requires EventsNameFills(a) && EventsNameFills(b)
    requires forall f :: f in a <==> f in b
    ensures multiset(Firsts(a)) == multiset(Firsts(b))
  {
    FirstsAre(a);
    FirstsAre(b);
    FirstsCover(a);
    FirstsCover(b);
    DistinctAsSet(Firsts(a));
    DistinctAsSet(Firsts(b));
    assert (set f | f in Firsts(a)) == (set f | f in Firsts(b));
  }

  lemma FirstsCover(a: seq<Fill>)
    requires EventsNameFills(a)
    ensures forall f :: f in a <==> f in Firsts(a)
  {
    FirstsAre(a);
    forall f | f in a ensures f in Firsts(a) {
      var i :| 0 <= i < |Firsts(a)| && Firsts(a)[i].eventSeq == f.eventSeq;
      assert Firsts(a)[i] in a;
    }
  }

  lemma {:induction false} SumsOfInsert(pre: seq<Fill>, f: Fill, post: seq<Fill>)
    ensures SumQty(pre + [f] + post) == SumQty(pre + post) + f.qty
    ensures SumValue(pre + [f] + post) == SumValue(pre + post) + Value(f)
  {
    hide Value;
    var whole := pre + [f] + post;
    if post == [] {
      assert whole[..|whole| - 1] == pre && pre + post == pre;
    } else {
      var n := |post| - 1;
      SumsOfInsert(pre, f, post[..n]);
      assert whole[..|whole| - 1] == pre + [f] + post[..n];
      assert (pre + post)[..|pre + post| - 1] == pre + post[..n];
    }
  }

  lemma {:induction false} SumsIgnoreOrder(a: seq<Fill>, b: seq<Fill>)
    requires multiset(a) == multiset(b)
    ensures SumQty(a) == SumQty(b) && SumValue(a) == SumValue(b)
    decreases |a|
  {
    hide Value;
    if a == [] {
      assert |multiset(b)| == 0;
    } else {
      var k := TakeOut(a, b);
      SumsIgnoreOrder(a[..|a| - 1], b[..k] + b[k + 1..]);
      SumsOfInsert(b[..k], b[k], b[k + 1..]);
      assert b == b[..k] + [b[k]] + b[k + 1..];
    }
  }

  /** Confluence: two deliveries of the same streamed fills, in any order and with any duplicates, leave an accepted
      order with the same quantity filled, quantity left, average price and status. */
  lemma DeliveryOrderIrrelevant(row: Row, a: seq<Fill>, b: seq<Fill>)
    requires row.status.Accepted? && row.fills == []
    requires FromStream(a) && FromStream(b)
    requires forall f :: f in a <==> f in b
    requires SumQty(Firsts(a)) <= row.qty
    ensures var x, y := Deliver(row, a), Deliver(row, b);
            && x.filledQty == y.filledQty && x.remaining == y.remaining
            && x.avgPrice == y.avgPrice && x.status == y.status
  {
    hide SumQty, SumValue, Firsts, Deliver;
    FirstsSameSet(a, b);
    SumsIgnoreOrder(Firsts(a), Firsts(b));
    DeliverStores(row, a);
    DeliverStores(row, b);
    assert Firsts(a) == [] <==> Firsts(b) == [] by {
      assert |multiset(Firsts(a))| == |Firsts(a)| && |multiset(Firsts(b))| == |Firsts(b)|;
    }
  }

  // ----- reported remainders -----

  predicate Working(s: OrderState) {
    s.Accepted? || s.PartiallyFilled?
  }

  /** Filled, remaining and average as the stored fills call for: the remainder is what the last fill reports, and else
      the quantity not filled yet. */
  ghost predicate AggregatesOf(d: Row) {
    && d.fills != [] && d.filledQty == SumQty(d.fills)
    && (d.filledQty != 0.0 ==> d.avgPrice == Some(SumValue(d.fills) / d.filledQty))
    && var last := d.fills[|d.fills| - 1].remaining;
       d.remaining == Some(if last.Some? then last.value
                           else if d.qty > d.filledQty then d.qty - d.filledQty else 0.0)
  }

  lemma ApplyAggregates(row: Row, f: Fill)
    requires !Terminal(row.status) && !HasEvent(row.fills, f.eventSeq)
    ensures AggregatesOf(ApplyFill(row, f)) && ApplyFill(row, f).fills == row.fills + [f]
    ensures ApplyFill(row, f).remaining == Some(Remaining(row.qty, row.fills + [f]))
  {
    hide SumQty, SumValue, HasEvent;
  }

  /** What a working order has become after the new executions `fills` were delivered to it. */
  ghost predicate StoredUpTo(row: Row, d: Row, fills: seq<Fill>) {
    var all := row.fills + fills;
    && d.qty == row.qty
    && row.fills <= d.fills && d.fills <= all
    && (forall i :: |row.fills| < i < |d.fills| ==> Remaining(row.qty, all[..i]) > 0.0)
    && (d.fills == row.fills ==> d.status == row.status)
    && (d.fills != row.fills ==>
          && AggregatesOf(d) && d.remaining == Some(Remaining(row.qty, d.fills))
          && d.status == if d.remaining.value <= 0.0 then Filled else PartiallyFilled)
    && (!Terminal(d.status) ==> d.fills == all)
  }

  lemma EventInPrefix(fills: seq<Fill>, more: seq<Fill>, eventSeq: string)
    requires fills <= more && !HasEvent(more, eventSeq)
    ensures !HasEvent(fills, eventSeq)
  {
    forall i | 0 <= i < |fills| ensures fills[i].eventSeq != eventSeq {
      assert more[i].eventSeq != eventSeq;
    }
  }

  lemma StoreOne(row: Row, d: Row, fills: seq<Fill>, f: Fill)
    requires Working(row.status) && StoredUpTo(row, d, fills) && !HasEvent(row.fills + fills, f.eventSeq)
    requires SumQty(row.fills + fills + [f]) > 0.0
    ensures StoredUpTo(row, ApplyFill(d, f), fills + [f])
  {
    hide SumQty, SumValue, Remaining, HasEvent, AggregatesOf;
    var all, more := row.fills + fills, row.fills + (fills + [f]);
    if !Terminal(d.status) {
      EventInPrefix(d.fills, all, f.eventSeq);
      ApplyAggregates(d, f);
    }
    assert more == all + [f];
    assert forall i :: 0 <= i <= |all| ==> more[..i] == all[..i];
    assert all[..|all|] == all;
  }

  lemma {:induction false} DeliverPrefix(row: Row, fills: seq<Fill>)
    requires Working(row.status)
    requires DistinctEvents(row.fills + fills) && Positive(row.fills + fills)
    ensures StoredUpTo(row, Deliver(row, fills), fills)
  {
    hide SumQty, SumValue, Remaining, ApplyFill;
    if fills == [] {
      assert row.fills + fills == row.fills;
    } else {
      var n := |fills| - 1;
      var all := row.fills + fills;
      assert all[..|all| - 1] == row.fills + fills[..n];
      DeliverPrefix(row, fills[..n]);
      SumPositive(all);
      assert all == row.fills + fills[..n] + [fills[n]] && fills[..n] + [fills[n]] == fills;
      StoreOne(row, Deliver(row, fills[..n]), fills[..n], fills[n]);
    }
  }

  /** With remainders reported by the broker, exactly those new executions of a working order are recorded in full in
      which none before the last one already reports (or leaves) nothing to do. */
  lemma RecordedInFull(row: Row, fills: seq<Fill>)
    requires Working(row.status)
    requires DistinctEvents(row.fills + fills) && Positive(row.fills + fills)
    ensures Deliver(row, fills).fills == row.fills + fills
       <==> forall i :: |row.fills| < i < |row.fills + fills| ==> Remaining(row.qty, (row.fills + fills)[..i]) > 0.0
  {
    hide Remaining, Deliver;
    DeliverPrefix(row, fills);
    var d, all := Deliver(row, fills), row.fills + fills;
    if d.fills != all && d.fills != row.fills {
      assert d.fills == all[..|d.fills|];
    }
  }

  /** Newest-first reports lose fills: the last execution, reporting nothing left, closes the order before the
      earlier one is seen. */
  lemma NewestFirstLosesFills(row: Row, first: Fill, second: Fill)
    requires row.status.Accepted? && row.fills == [] && row.qty == 3.0
    requires first == Fill("recon:1", 1.0, 10.0, Some(2.0)) && second == Fill("recon:2", 2.0, 11.0, Some(0.0))
    ensures Deliver(row, [first, second]).filledQty == 3.0
    ensures var d := Deliver(row, [second, first]); d.status.Filled? && d.filledQty == 2.0
  {
    hide SumQty, SumValue, Deliver, HasEvent, Value, ApplyFill;
    SumsOfTwo(first, second);
    SumsOfTwo(second, first);
    DeliverTwo(row, first, second);
    DeliverTwo(row, second, first);
    FirstFill(row, first);
    FirstFill(row, second);
    SecondFill(ApplyFill(row, first), first, second);
    AfterTerminal(ApplyFill(row, second), first);
  }

  lemma FirstFill(row: Row, f: Fill)
    requires row.status.Accepted? && row.fills == [] && f.remaining.Some? && f.qty > 0.0
    ensures var d := ApplyFill(row, f);
            && d.fills == [f] && d.filledQty == f.qty
            && d.status == if f.remaining.value <= 0.0 then Filled else PartiallyFilled
  {
    hide SumValue, Value;
    SumsOfTwo(f, f);
    assert row.fills + [f] == [f];
  }

  lemma SecondFill(row: Row, f: Fill, g: Fill)
    requires !Terminal(row.status) && row.fills == [f] && f.eventSeq != g.eventSeq
    ensures ApplyFill(row, g).filledQty == f.qty + g.qty
  {
    hide SumValue, Value;
    SumsOfTwo(f, g);
    assert row.fills + [g] == [f, g];
  }

  lemma AfterTerminal(row: Row, f: Fill)
    requires Terminal(row.status)
    ensures ApplyFill(row, f) == row
  {
  }

  lemma SumsOfTwo(f: Fill, g: Fill)
    ensures SumQty([f]) == f.qty && SumQty([f, g]) == f.qty + g.qty
  {
    assert [f, g][..1] == [f] && [f][..0] == [];
    assert SumQty([f][..0]) == 0.0;
  }

  lemma DeliverTwo(row: Row, f: Fill, g: Fill)
    requires row.fills == []
    ensures row.fills + [f] == [f] && [f] + [g] == [f, g]
    ensures Deliver(row, [f, g]) == ApplyFill(ApplyFill(row, f), g)
  {
    hide ApplyFill;
    assert [f, g][..1] == [f] && [f][..0] == [];
    assert Deliver(row, [f][..0]) == row;
    assert Deliver(row, [f]) == ApplyFill(row, f);
  }
}
