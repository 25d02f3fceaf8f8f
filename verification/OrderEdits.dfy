/** What a cancellation, an amendment, a streamed fill and the registration of an unknown order leave behind when
    nothing interferes. */
module OrderEdits {
  import opened Wrappers
  import opened OrderStates
  import opened OrderLedger
  import opened OrdersDb
  import opened BrokerReports
  import opened OrderRuns
  import opened OrderSolo
  import opened OrderReconcile

  /** The audit row of an amendment or cancellation: what was asked, and whether the broker confirmed it. */
  function AuditRow(parent: Row, suffix: string, relation: Relation, qty: real, price: Option<real>, ok: bool): Row {
    var status := if ok then Accepted else Rejected;
    Row(parent.key + suffix, parent.account, parent.market, parent.symbol, relation, qty, price, status, None,
        0.0, None, None, status, [], [])
  }

  lemma ChildIs(parent: Row, relation: Relation, a: Answer, qty: real, price: Option<real>)
    requires a.Ack? && !relation.New?
    ensures Child(parent, relation, a, qty, price)
         == AuditRow(parent, (if relation.Modify? then ":modify:" else ":cancel:") + a.nonce, relation, qty, price, a.ok)
  {
    assert parent.key + (":modify:" + a.nonce) == parent.key + ":modify:" + a.nonce;
    assert parent.key + (":cancel:" + a.nonce) == parent.key + ":cancel:" + a.nonce;
  }

  /** The table with the audit row of a request on order `id`; a repeated key adds nothing. */
  function Audited(rows: seq<Row>, child: Row): seq<Row> {
    if WithKey(rows, child.key).Some? then rows else rows + [child]
  }

  lemma AuditInserted(rows: seq<Row>, child: Row)
    requires Stored(rows) && child.brokerId.None?
    ensures Insert(rows, child).0 == Audited(rows, child) && !Insert(rows, child).1.Raised?
    ensures Stored(Audited(rows, child))
  {
    InsertKeeps(rows, child);
  }

  /** Canceled when the broker confirms and the state machine allows it. */
  function CanceledIf(row: Row, ok: bool): Row {
    if ok && CanTransition(row.status, Canceled)
    then row.(status := Canceled, log := row.log + [Entry(row.status, Canceled)]) else row
  }

  lemma CancelLocked(id: nat, a: Answer, rows: seq<Row>, sent: seq<nat>)
    requires Stored(rows) && id < |rows|
    ensures Solo(CancelWait(id), a, rows, sent) == (rows[id := CanceledIf(rows[id], true)], sent)
  {
    hide Solo, Stored, Move, PlaceStep, AmendStep, ReconcileStep, FillsStep;
    SoloUnfold(CancelWait(id), a, rows, sent);
    SoloUnfold(CancelHeld(id), a, rows, sent);
    if Cancelable(rows[id].status) {
      SoloUnfold(CancelWrite(id), a, rows, sent);
      MoveKeep(rows, id, Canceled);
    } else {
      assert rows[id := rows[id]] == rows;
    }
  }

  /** A cancellation the broker confirms cancels the order if it is still working, and adds an audit row; anything
      else leaves the order alone. */
  lemma CancelAlone(id: nat, a: Answer, rows: seq<Row>, sent: seq<nat>)
    requires Stored(rows) && id < |rows|
    ensures var (after, sent') := Solo(Proc.Cancel(id), a, rows, sent);
            var parent := rows[id];
            && sent' == sent
            && if parent.brokerId.None? || parent.brokerId.value == "" || !a.Ack? then after == rows
               else
                 var audited := Audited(rows, AuditRow(parent, ":cancel:" + a.nonce, Relation.Cancel, parent.qty,
                                                       parent.price, a.ok));
                 after == audited[id := CanceledIf(parent, a.ok)]
  {
    hide Solo, Stored, Insert, CanTransition, PlaceStep, AmendStep, ReconcileStep, FillsStep;
    SoloUnfold(Proc.Cancel(id), a, rows, sent);
    if HasOrdNo(rows[id]) {
      var parent := rows[id];
      SoloUnfold(CancelSent(id, parent), a, rows, sent);
      if a.Ack? {
        var child := Child(parent, Relation.Cancel, a, parent.qty, parent.price);
        ChildIs(parent, Relation.Cancel, a, parent.qty, parent.price);
        AuditInserted(rows, child);
        SoloUnfold(CancelChild(id, child, a.ok), a, rows, sent);
        CancelLocked(id, a, Audited(rows, child), sent);
        assert Audited(rows, child)[id := parent] == Audited(rows, child);
      }
    }
  }

  /** A confirmed amendment gives the order its new number, quantity and price unless the number is taken. */
  lemma AmendAlone(id: nat, qty: real, price: real, a: Answer, rows: seq<Row>, sent: seq<nat>)
    requires Stored(rows) && id < |rows|
    ensures var (after, sent') := Solo(Proc.Amend(id, qty, price), a, rows, sent);
            var parent := rows[id];
            && sent' == sent
            && if parent.brokerId.None? || parent.brokerId.value == "" || !a.Ack? then after == rows
               else
                 var audited := Audited(rows, AuditRow(parent, ":modify:" + a.nonce, Modify, qty, Some(price), a.ok));
                 var amended := parent.(brokerId := a.ordNo, qty := qty, price := Some(price));
                 after == if a.ok && Fits(audited, id, amended) then audited[id := amended] else audited
  {
    hide Solo, Stored, Fits, Insert, PlaceStep, CancelStep, ReconcileStep, FillsStep;
    SoloUnfold(Proc.Amend(id, qty, price), a, rows, sent);
    if HasOrdNo(rows[id]) {
      var parent := rows[id];
      SoloUnfold(AmendSent(id, parent, qty, price), a, rows, sent);
      if a.Ack? {
        var child := Child(parent, Modify, a, qty, Some(price));
        ChildIs(parent, Modify, a, qty, Some(price));
        AuditInserted(rows, child);
        SoloUnfold(AmendChild(id, child, a.ok, a.ordNo), a, rows, sent);
        if a.ok {
          SoloUnfold(AmendWrite(id, a.ordNo, qty, price), a, Audited(rows, child), sent);
        }
      }
    }
  }

  /** A streamed execution is applied to the order that carries its number, and ignored when there is none. */
  lemma StreamAlone(acct: nat, msg: Tc3, a: Answer, rows: seq<Row>, sent: seq<nat>)
    requires Stored(rows)
    ensures var known := ByBroker(rows, acct, msg.ordrNo);
            (Solo(Stream(acct, msg), a, rows, sent)
              == (if Tc3ToFill(msg).Some? && known.Some?
                  then rows[known.value := ApplyFill(rows[known.value], Tc3ToFill(msg).value)] else rows, sent))
  {
    hide Solo, Stored, ApplyFill, Tc3ToFill, PlaceStep, CancelStep, AmendStep, ReconcileStep;
    SoloUnfold(Stream(acct, msg), a, rows, sent);
    var fill, known := Tc3ToFill(msg), ByBroker(rows, acct, msg.ordrNo);
    if fill.Some? && known.Some? {
      WaitThenFill(known.value, [fill.value], false, a, rows, sent);
      DeliverOne(rows[known.value], fill.value);
    }
  }

  lemma DeliverOne(row: Row, f: Fill)
    ensures Deliver(row, [f]) == ApplyFill(row, f)
  {
    hide ApplyFill;
    assert [f][..0] == [] && Deliver(row, [f][..0]) == row;
  }

  /** An order only the broker knows is inserted once, accepted, with its executions already applied. */
  lemma OrphanAlone(account: Option<nat>, market: string, symbol: string, live: bool, listed: seq<BrokerRow>, a: Answer,
                    rows: seq<Row>, sent: seq<nat>)
    requires Stored(rows) && listed != []
    ensures var first := listed[0];
            var row := Row((if live then "recon:" + market + ":" else "recon:") + first.ordNo, account, market, symbol,
                           New, if first.qty == 0 then 1.0 else first.qty as real, first.price, Accepted,
                           Some(first.ordNo), 0.0, None, None, Accepted, [], []);
            (Solo(Orphan(account, market, symbol, live, listed), a, rows, sent)
              == (if WithKey(rows, row.key).None? && Fits(rows, |rows|, row)
                  then rows + [Deliver(row, FillsOf(listed))] else rows, sent))
  {
    hide Solo, Stored, Fits, Deliver, FillsOf, PlaceStep, CancelStep, AmendStep, ReconcileStep;
    var row := OrphanRow(account, market, symbol, live, listed[0]);
    SoloUnfold(Orphan(account, market, symbol, live, listed), a, rows, sent);
    if WithKey(rows, row.key).None? && Fits(rows, |rows|, row) {
      var out := rows + [row];
      InsertKeeps(rows, row);
      WaitThenFill(|rows|, FillsOf(listed), false, a, out, sent);
      assert out[|rows| := Deliver(row, FillsOf(listed))] == rows + [Deliver(row, FillsOf(listed))];
    }
  }

  /** The keys of live registrations tell the two markets and their order numbers apart. */
  lemma LiveKeysAreScoped(account: Option<nat>, m1: string, s1: string, m2: string, s2: string, r1: BrokerRow,
                          r2: BrokerRow)
    requires m1 == "korea_stock" || m1 == "overseas_stock"
    requires m2 == "korea_stock" || m2 == "overseas_stock"
    ensures OrphanRow(account, m1, s1, true, r1).key == OrphanRow(account, m2, s2, true, r2).key
       <==> m1 == m2 && r1.ordNo == r2.ordNo
  {
    var k1, k2 := OrphanRow(account, m1, s1, true, r1).key, OrphanRow(account, m2, s2, true, r2).key;
    assert k1[6] == m1[0] && k2[6] == m2[0];
    assert "korea_stock"[0] != "overseas_stock"[0];
    assert k1[7 + |m1|..] == r1.ordNo && k2[7 + |m2|..] == r2.ordNo;
  }

  lemma RegisteredStored(rows: seq<Row>, row: Row, fills: seq<Fill>)
    requires Stored(rows) && WithKey(rows, row.key).None? && Fits(rows, |rows|, row)
    ensures Stored(rows + [Deliver(row, fills)])
  {
    hide Stored, Deliver, Fits;
    var out := rows + [row];
    InsertKeeps(rows, row);
    DeliverKeeps(row, fills);
    SameIdsFit(out, |rows|, Deliver(row, fills));
    ReplaceStored(out, |rows|, Deliver(row, fills));
    assert out[|rows| := Deliver(row, fills)] == rows + [Deliver(row, fills)];
  }

  /** Registering the same listing again changes nothing. */
  lemma RegisterTwice(account: Option<nat>, market: string, symbol: string, live: bool, listed: seq<BrokerRow>,
                      a: Answer, rows: seq<Row>, sent: seq<nat>)
    requires Stored(rows) && listed != []
    ensures var (once, sent1) := Solo(Orphan(account, market, symbol, live, listed), a, rows, sent);
            Solo(Orphan(account, market, symbol, live, listed), a, once, sent1) == (once, sent1)
  {
    hide Solo, Stored, Fits, Deliver, FillsOf;
    var row := OrphanRow(account, market, symbol, live, listed[0]);
    OrphanAlone(account, market, symbol, live, listed, a, rows, sent);
    if WithKey(rows, row.key).None? && Fits(rows, |rows|, row) {
      var once := rows + [Deliver(row, FillsOf(listed))];
      RegisteredStored(rows, row, FillsOf(listed));
      DeliverKeeps(row, FillsOf(listed));
      assert once[|rows|].key == row.key;
      OrphanAlone(account, market, symbol, live, listed, a, once, sent);
    }
  }
}
