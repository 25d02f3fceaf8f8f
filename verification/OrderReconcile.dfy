/** What the reconciliation of one order leaves behind when nothing interferes. */
module OrderReconcile {
  import opened Wrappers
  import opened OrderStates
  import opened OrderLedger
  import opened OrdersDb
  import opened BrokerReports
  import opened OrderRuns
  import opened OrderSolo

  lemma {:induction false} DeliverFront(row: Row, f: Fill, rest: seq<Fill>)
    ensures Deliver(row, [f] + rest) == Deliver(ApplyFill(row, f), rest)
    decreases |rest|
  {
    hide ApplyFill;
    var all := [f] + rest;
    if rest == [] {
      assert all[..0] == [] && all == [f];
      assert Deliver(row, all[..0]) == row;
    } else {
      DeliverFront(row, f, rest[..|rest| - 1]);
      assert all[..|all| - 1] == [f] + rest[..|rest| - 1];
    }
  }

  lemma {:induction false} DeliverKeeps(row: Row, fills: seq<Fill>)
    ensures var d := Deliver(row, fills);
            && d.key == row.key && d.account == row.account && d.brokerId == row.brokerId && d.relation == row.relation
            && d.market == row.market && d.symbol == row.symbol
            && d.qty == row.qty && row.fills <= d.fills && (d.fills == row.fills ==> d == row)
  {
    hide ApplyFill;
    if fills != [] {
      var d := Deliver(row, fills[..|fills| - 1]);
      DeliverKeeps(row, fills[..|fills| - 1]);
      ApplyFillGrows(d, fills[|fills| - 1]);
    }
  }

  lemma ApplyFillGrows(row: Row, f: Fill)
    ensures var d := ApplyFill(row, f);
            && d.key == row.key && d.account == row.account && d.brokerId == row.brokerId && d.relation == row.relation
            && d.market == row.market && d.symbol == row.symbol
            && d.qty == row.qty
            && d.fills == (if Terminal(row.status) || HasEvent(row.fills, f.eventSeq) then row.fills else row.fills + [f])
            && (d.fills == row.fills ==> d == row)
  {
    hide SumQty, SumValue, Remaining, Target, HasEvent;
  }

  /** The last step of the paper reconciliation: an accepted order that got nothing expires at market close. */
  function ClosedIf(row: Row, closing: bool): Row {
    if closing && row.status.Accepted? then row.(status := Expired, log := row.log + [Entry(Accepted, Expired)]) else row
  }

  /** What a reconciliation makes of an order, given the rows the broker lists. */
  function Reconciled(row: Row, listed: seq<BrokerRow>, live: bool, closing: bool): Row {
    if Terminal(row.status) || !row.relation.New? || !HasOrdNo(row) then row
    else
      var matched := Matching(listed, row.brokerId.value);
      if matched == [] then
        if live then row else Transition(row, if closing then Expired else Canceled).GetOr(row)
      else
        var d := Deliver(row, FillsOf(matched));
        ClosedIf(d, closing && !live && d.fills == row.fills)
  }

  lemma MoveKeep(rows: seq<Row>, id: nat, to: OrderState)
    requires Stored(rows) && id < |rows|
    ensures Move(rows, id, to, Keep).0 == rows[id := Transition(rows[id], to).GetOr(rows[id])]
    ensures Move(rows, id, to, Keep).1 == if CanTransition(rows[id].status, to) then Moved(rows[id].status) else Illegal
  {
    hide Stored, Fits;
    if CanTransition(rows[id].status, to) {
      SameIdsFit(rows, id, Transition(rows[id], to).value);
    }
  }

  lemma LastFill(id: nat, closing: bool, applied: bool, a: Answer, rows: seq<Row>, sent: seq<nat>)
    requires Stored(rows) && id < |rows|
    ensures Solo(FillsHeld(id, [], closing, applied), a, rows, sent)
         == (rows[id := ClosedIf(rows[id], closing && !applied)], sent)
  {
    hide Solo, Stored, Move, PlaceStep, CancelStep, AmendStep;
    SoloUnfold(FillsHeld(id, [], closing, applied), a, rows, sent);
    assert rows[id := rows[id]] == rows;
    if !applied && closing && rows[id].status.Accepted? {
      SoloUnfold(ExpireWrite(id), a, rows, sent);
      MoveKeep(rows, id, Expired);
    }
  }

  lemma {:induction false} FillsAlone(id: nat, fills: seq<Fill>, closing: bool, applied: bool, a: Answer,
                                      rows: seq<Row>, sent: seq<nat>)
    requires Stored(rows) && id < |rows|
    ensures var d := Deliver(rows[id], fills);
            (Solo(FillsHeld(id, fills, closing, applied), a, rows, sent)
              == (rows[id := ClosedIf(d, closing && !applied && d.fills == rows[id].fills)], sent))
    decreases |fills|
  {
    hide Solo, Stored, ApplyFill, HasEvent, ClosedIf, PlaceStep, CancelStep, AmendStep, ReconcileStep;
    if fills == [] {
      LastFill(id, closing, applied, a, rows, sent);
    } else {
      SoloUnfold(FillsHeld(id, fills, closing, applied), a, rows, sent);
      var (after, took) := Book(rows, id, fills[0]);
      FillKeeps(rows, id, fills[0]);
      FillsAlone(id, fills[1..], closing, applied || took, a, after, sent);
      assert fills == [fills[0]] + fills[1..];
      DeliverFront(rows[id], fills[0], fills[1..]);
      ApplyFillGrows(rows[id], fills[0]);
      DeliverKeeps(after[id], fills[1..]);
      var d := Deliver(rows[id], fills);
      assert d == Deliver(after[id], fills[1..]);
      assert took <==> |after[id].fills| == |rows[id].fills| + 1;
      var out := ClosedIf(d, closing && !applied && d.fills == rows[id].fills);
      assert after[id := out] == rows[id := out];
    }
  }

  lemma WaitThenFill(id: nat, fills: seq<Fill>, closing: bool, a: Answer, rows: seq<Row>, sent: seq<nat>)
    requires Stored(rows) && id < |rows|
    ensures var d := Deliver(rows[id], fills);
            (Solo(FillsWait(id, fills, closing), a, rows, sent)
              == (rows[id := ClosedIf(d, closing && d.fills == rows[id].fills)], sent))
  {
    hide Solo, Stored, Deliver;
    SoloUnfold(FillsWait(id, fills, closing), a, rows, sent);
    FillsAlone(id, fills, closing, false, a, rows, sent);
  }

  lemma GoneAlone(id: nat, to: OrderState, a: Answer, rows: seq<Row>, sent: seq<nat>)
    requires Stored(rows) && id < |rows| && !Terminal(rows[id].status)
    ensures Solo(GoneWait(id, to), a, rows, sent) == (rows[id := Transition(rows[id], to).GetOr(rows[id])], sent)
  {
    hide Solo, Stored, Transition, Move, PlaceStep, CancelStep, AmendStep, FillsStep;
    SoloUnfold(GoneWait(id, to), a, rows, sent);
    SoloUnfold(GoneHeld(id, to), a, rows, sent);
    SoloUnfold(GoneWrite(id, to), a, rows, sent);
    MoveKeep(rows, id, to);
  }

  lemma FetchedAlone(id: nat, live: bool, closing: bool, listed: seq<BrokerRow>, rows: seq<Row>, sent: seq<nat>)
    requires Stored(rows) && id < |rows| && !Terminal(rows[id].status) && rows[id].relation.New? && HasOrdNo(rows[id])
    ensures Solo(Fetched(id, rows[id].brokerId.value, live, closing), Listed(listed), rows, sent)
         == (rows[id := Reconciled(rows[id], listed, live, closing)], sent)
  {
    hide Solo, Stored, Deliver, FillsOf, Matching, Transition, Terminal, ClosedIf,
         PlaceStep, CancelStep, AmendStep, FillsStep;
    var a, asked := Listed(listed), rows[id].brokerId.value;
    SoloUnfold(Fetched(id, asked, live, closing), a, rows, sent);
    var matched := Matching(listed, asked);
    if matched != [] {
      WaitThenFill(id, FillsOf(matched), closing && !live, a, rows, sent);
    } else if !live {
      GoneAlone(id, if closing then Expired else Canceled, a, rows, sent);
    } else {
      assert rows[id := rows[id]] == rows;
    }
  }

  /** Reconciling an order alone rewrites exactly its row, to `Reconciled`. */
  lemma ReconcileAlone(id: nat, live: bool, closing: bool, listed: seq<BrokerRow>, rows: seq<Row>, sent: seq<nat>)
    requires Stored(rows) && id < |rows|
    ensures Solo(Reconcile(id, live, closing), Listed(listed), rows, sent)
         == (rows[id := Reconciled(rows[id], listed, live, closing)], sent)
  {
    hide Solo, Stored, Reconciled, PlaceStep, CancelStep, AmendStep, FillsStep;
    SoloUnfold(Reconcile(id, live, closing), Listed(listed), rows, sent);
    if !Terminal(rows[id].status) && rows[id].relation.New? && HasOrdNo(rows[id]) {
      FetchedAlone(id, live, closing, listed, rows, sent);
    } else {
      UntouchedBy(rows[id], listed, live, closing);
      assert rows[id := rows[id]] == rows;
    }
  }

  /** Without an order number, closed, or an audit row: a reconciliation leaves it alone. */
  lemma UntouchedBy(row: Row, listed: seq<BrokerRow>, live: bool, closing: bool)
    requires Terminal(row.status) || !row.relation.New? || row.brokerId.None? || row.brokerId.value == ""
    ensures Reconciled(row, listed, live, closing) == row
  {
  }

  /** An order the broker no longer lists: the paper reconciliation closes it, the live one leaves it alone. */
  lemma UnlistedIsClosed(row: Row, listed: seq<BrokerRow>, live: bool, closing: bool)
    requires row.relation.New? && row.brokerId.Some? && row.brokerId.value != ""
    requires row.status.Accepted? || row.status.PartiallyFilled?
    requires forall r <- listed :: r.ordNo != row.brokerId.value
    ensures var d := Reconciled(row, listed, live, closing);
            && d.fills == row.fills
            && (live ==> d == row)
            && (!live ==> d.status == (if closing then Expired else Canceled) && |d.log| == |row.log| + 1)
  {
    assert Matching(listed, row.brokerId.value) == [];
  }

  /** The executions not stored yet. */
  function NewOnes(known: seq<Fill>, fills: seq<Fill>): seq<Fill> {
    if fills == [] then []
    else
      var before := NewOnes(known, fills[..|fills| - 1]);
      if HasEvent(known, fills[|fills| - 1].eventSeq) then before else before + [fills[|fills| - 1]]
  }

  lemma {:induction false} NewOnesAre(known: seq<Fill>, fills: seq<Fill>)
    requires DistinctEvents(known) && DistinctEvents(fills) && Positive(known) && Positive(fills)
    ensures var newer := NewOnes(known, fills);
            && DistinctEvents(known + newer) && Positive(known + newer)
            && forall f <- newer :: f in fills
  {
    if fills == [] {
      assert known + [] == known;
    } else {
      var n := |fills| - 1;
      NewOnesAre(known, fills[..n]);
      var before := NewOnes(known, fills[..n]);
      if !HasEvent(known, fills[n].eventSeq) {
        forall i | 0 <= i < |known + before| ensures (known + before)[i].eventSeq != fills[n].eventSeq {
          if i >= |known| {
            assert before[i - |known|] in fills[..n];
            var j :| 0 <= j < n && fills[..n][j] == before[i - |known|];
            assert fills[j].eventSeq != fills[n].eventSeq;
          }
        }
        PushDistinct(known + before, fills[n]);
        assert known + before + [fills[n]] == known + (before + [fills[n]]);
      }
    }
  }

  lemma KnownStays(known: seq<Fill>, more: seq<Fill>, eventSeq: string)
    requires known <= more && HasEvent(known, eventSeq)
    ensures HasEvent(more, eventSeq)
  {
    var i :| 0 <= i < |known| && known[i].eventSeq == eventSeq;
    assert more[i].eventSeq == eventSeq;
  }

  lemma {:induction false} DeliverSkipsKnown(row: Row, fills: seq<Fill>)
    ensures Deliver(row, fills) == Deliver(row, NewOnes(row.fills, fills))
  {
    hide ApplyFill, HasEvent;
    if fills != [] {
      var n := |fills| - 1;
      DeliverSkipsKnown(row, fills[..n]);
      var before := NewOnes(row.fills, fills[..n]);
      if HasEvent(row.fills, fills[n].eventSeq) {
        var d := Deliver(row, before);
        DeliverKeeps(row, before);
        KnownStays(row.fills, d.fills, fills[n].eventSeq);
        ApplyFillGrows(d, fills[n]);
      } else {
        assert (before + [fills[n]])[..|before|] == before;
      }
    }
  }

  /** A working order catches up with the broker's listing in full exactly when no new execution but the last leaves
      nothing to do; it is then filled or partially filled as the last one says. With nothing new it stays as it is,
      except that the paper reconciliation expires an accepted order at market close. */
  lemma ListedCatchesUp(row: Row, listed: seq<BrokerRow>, live: bool, closing: bool)
    requires Working(row.status) && row.relation.New? && HasOrdNo(row)
    requires DistinctEvents(row.fills) && Positive(row.fills)
    requires var matched := Matching(listed, row.brokerId.value);
             matched != [] && DistinctExecutions(matched)
    ensures var newer := NewOnes(row.fills, FillsOf(Matching(listed, row.brokerId.value)));
            var all := row.fills + newer;
            var d := Reconciled(row, listed, live, closing);
            && (d.fills == all <==> forall i :: |row.fills| < i < |all| ==> Remaining(row.qty, all[..i]) > 0.0)
            && (d.fills == all && newer != [] ==>
                  AggregatesOf(d) && d.status == if d.remaining.value <= 0.0 then Filled else PartiallyFilled)
            && (newer == [] ==> d == ClosedIf(row, closing && !live))
  {
    hide Deliver, Remaining, DistinctEvents, Positive, NewOnes, FillsOf, DistinctExecutions, AggregatesOf;
    var fills := FillsOf(Matching(listed, row.brokerId.value));
    var newer := NewOnes(row.fills, fills);
    DistinctFillsIff(Matching(listed, row.brokerId.value));
    NewOnesAre(row.fills, fills);
    DeliverSkipsKnown(row, fills);
    RecordedInFull(row, newer);
    DeliverPrefix(row, newer);
    DeliverKeeps(row, newer);
  }

  lemma {:induction false} AllNew(fills: seq<Fill>)
    ensures NewOnes([], fills) == fills
  {
    if fills != [] {
      AllNew(fills[..|fills| - 1]);
    }
  }

  /** An accepted order the broker lists for the first time, its executions under different numbers and none before the
      last leaving nothing to do: it has then filled what the listing says was executed, at what it cost, with what its
      last row says is left. */
  lemma FirstListing(row: Row, listed: seq<BrokerRow>, live: bool, closing: bool)
    requires row.status.Accepted? && row.fills == [] && row.relation.New? && HasOrdNo(row)
    requires var matched := Matching(listed, row.brokerId.value);
             var fills := FillsOf(matched);
             && matched != [] && matched[|matched| - 1].execQty > 0.0 && DistinctExecutions(matched)
             && forall i :: 0 < i < |fills| ==> Remaining(row.qty, fills[..i]) > 0.0
    ensures var matched := Matching(listed, row.brokerId.value);
            var d := Reconciled(row, listed, live, closing);
            var left := matched[|matched| - 1].remaining;
            && d.filledQty == Executed(matched)
            && (d.filledQty > 0.0 ==> d.avgPrice == Some(Paid(matched) / d.filledQty))
            && d.remaining == Some(if left.Some? then left.value
                                   else if row.qty > d.filledQty then row.qty - d.filledQty else 0.0)
            && d.status == if d.remaining.value <= 0.0 then Filled else PartiallyFilled
  {
    hide Reconciled, FillsOf, Remaining, SumQty, SumValue, DistinctEvents, DistinctExecutions, NewOnes, Executed, Paid;
    var matched := Matching(listed, row.brokerId.value);
    var fills := FillsOf(matched);
    AllNew(fills);
    assert [] + fills == fills;
    NoFillsYet();
    FillsAddUp(matched);
    LastReport(matched);
    ListedCatchesUp(row, listed, live, closing);
    ReconciledQty(row, listed, live, closing);
  }

  lemma NoFillsYet()
    ensures DistinctEvents([]) && Positive([])
  {
  }

  lemma ReconciledQty(row: Row, listed: seq<BrokerRow>, live: bool, closing: bool)
    ensures Reconciled(row, listed, live, closing).qty == row.qty
  {
    hide Deliver, FillsOf, Matching;
    if HasOrdNo(row) {
      DeliverKeeps(row, FillsOf(Matching(listed, row.brokerId.value)));
    }
  }

  // ----- reconciling twice -----

  ghost predicate Saturated(row: Row, fills: seq<Fill>) {
    Terminal(row.status) || forall f <- fills :: HasEvent(row.fills, f.eventSeq)
  }

  lemma {:induction false} DeliverSaturates(row: Row, fills: seq<Fill>)
    ensures Saturated(Deliver(row, fills), fills)
  {
    hide ApplyFill, HasEvent;
    if fills != [] {
      var n := |fills| - 1;
      var d := Deliver(row, fills[..n]);
      DeliverSaturates(row, fills[..n]);
      OneMoreEvent(d, fills[..n], fills[n]);
      assert fills[..n] + [fills[n]] == fills;
    }
  }

  lemma OneMoreEvent(d: Row, before: seq<Fill>, f: Fill)
    requires Saturated(d, before)
    ensures Saturated(ApplyFill(d, f), before + [f])
  {
    hide ApplyFill;
    ApplyFillGrows(d, f);
    if Terminal(d.status) {
      AfterTerminal(d, f);
    }
    var e := ApplyFill(d, f);
    if !Terminal(d.status) {
      assert d.fills <= e.fills;
      forall g | g in before + [f] ensures HasEvent(e.fills, g.eventSeq) {
        if HasEvent(d.fills, g.eventSeq) {
          var i :| 0 <= i < |d.fills| && d.fills[i].eventSeq == g.eventSeq;
          assert e.fills[i].eventSeq == g.eventSeq;
        } else {
          assert g == f && e.fills[|d.fills|] == f;
        }
      }
    }
  }

  lemma {:induction false} SaturatedStays(row: Row, fills: seq<Fill>)
    requires Saturated(row, fills)
    ensures Deliver(row, fills) == row
  {
    hide ApplyFill, HasEvent;
    if fills != [] {
      var n := |fills| - 1;
      assert fills[n] in fills;
      SaturatedStays(row, fills[..n]);
      ApplyFillGrows(row, fills[n]);
    }
  }

  /** Reconciling a known order twice against the same listing is the same as once. */
  lemma ReconcileTwice(row: Row, listed: seq<BrokerRow>, live: bool, closing: bool)
    requires row.status.Accepted? ==> row.fills == []
    ensures var once := Reconciled(row, listed, live, closing);
            Reconciled(once, listed, live, closing) == once
  {
    hide Deliver, FillsOf, Matching, Saturated, ApplyFill;
    if !Terminal(row.status) && row.relation.New? && HasOrdNo(row) {
      var matched := Matching(listed, row.brokerId.value);
      var fills := FillsOf(matched);
      var d := Deliver(row, fills);
      DeliverKeeps(row, fills);
      DeliverSaturates(row, fills);
      SaturatedStays(d, fills);
      AcceptedHasNoFills(row, fills);
    }
  }

  lemma {:induction false} AcceptedHasNoFills(row: Row, fills: seq<Fill>)
    requires row.status.Accepted? ==> row.fills == []
    requires Positive(fills)
    ensures Deliver(row, fills).status.Accepted? ==> Deliver(row, fills).fills == []
  {
    hide ApplyFill;
    if fills != [] {
      var n := |fills| - 1;
      AcceptedHasNoFills(row, fills[..n]);
      FillLeavesAccepted(Deliver(row, fills[..n]), fills[n]);
    }
  }

  lemma FillLeavesAccepted(row: Row, f: Fill)
    requires row.status.Accepted? ==> row.fills == []
    requires f.qty > 0.0
    ensures ApplyFill(row, f).status.Accepted? ==> ApplyFill(row, f).fills == []
  {
    hide SumValue, Remaining;
    SumsOfTwo(f, f);
    assert [] + [f] == [f];
  }
}
