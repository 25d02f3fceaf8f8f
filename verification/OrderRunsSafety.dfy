/** What every interleaving of the order coroutines keeps. */
module OrderRunsSafety {
  import opened Wrappers
  import opened OrderStates
  import opened OrderLedger
  import opened OrdersDb
  import opened BrokerReports
  import opened OrderRuns

  /** States of an order the broker has acknowledged. */
  predicate Placed(s: OrderState) {
    s.Accepted? || s.PartiallyFilled? || s.Filled? || s.Canceled? || s.Expired?
  }

  /** A row whose ledger is right; only acknowledged orders carry an order number or fills. */
  ghost predicate RowOk(row: Row) {
    && RowInv(row)
    && (row.brokerId.Some? ==> Placed(row.status))
    && (!Placed(row.status) ==> row.fills == [])
  }

  ghost predicate RowsOk(rows: seq<Row>) {
    forall i :: 0 <= i < |rows| ==> RowOk(rows[i])
  }

  /** The acknowledged order a coroutine other than its placement works on. */
  function WorksOn(p: Proc): Option<nat> {
    match p
    case CancelSent(id, _) => Some(id)
    case CancelChild(id, _, _) => Some(id)
    case CancelWait(id) => Some(id)
    case CancelHeld(id) => Some(id)
    case CancelWrite(id) => Some(id)
    case AmendSent(id, _, _, _) => Some(id)
    case AmendChild(id, _, _, _) => Some(id)
    case AmendWrite(id, _, _, _) => Some(id)
    case Fetched(id, _, _, _) => Some(id)
    case GoneWait(id, _) => Some(id)
    case GoneHeld(id, _) => Some(id)
    case GoneWrite(id, _) => Some(id)
    case FillsWait(id, _, _) => Some(id)
    case FillsHeld(id, _, _, _) => Some(id)
    case ExpireWrite(id) => Some(id)
    case _ => None
  }

  /** What a coroutine has read about its order's status and may rely on. */
  predicate Knows(p: Proc, status: OrderState) {
    match p
    case PlaceWait(_) => status.Approved?
    case PlaceHeld(_) => status.Approved?
    case PlaceSend(_) => status.Submitted?
    case PlaceSent(_) => status.Submitted?
    case PlaceRecord(_, to, update) =>
      status.Submitted? && (to.Accepted? || (update.Keep? && (to.Rejected? || to.InDoubt?)))
    case CancelWrite(_) => status.Accepted? || status.PartiallyFilled?
    case GoneWrite(_, to) => (status.Accepted? || status.PartiallyFilled?) && (to.Canceled? || to.Expired?)
    case ExpireWrite(_) => status.Accepted?
    case _ => WorksOn(p).Some? ==> Placed(status)
  }

  predicate ChildOk(row: Row) {
    row.brokerId.None? && row == NewRow(row.key, row.account, row.market, row.symbol, row.relation, row.qty,
                                             row.price, row.status, None)
    && (row.status.Accepted? || row.status.Rejected?)
  }

  ghost predicate Carries(p: Proc) {
    match p
    case CancelChild(_, child, _) => ChildOk(child)
    case AmendChild(_, child, _, _) => ChildOk(child)
    case GoneWait(_, to) => to.Canceled? || to.Expired?
    case GoneHeld(_, to) => to.Canceled? || to.Expired?
    case FillsWait(_, fills, _) => Positive(fills)
    case FillsHeld(_, fills, _, _) => Positive(fills)
    case _ => true
  }

  function About(p: Proc): Option<nat> {
    if Owner(p).Some? then Owner(p) else WorksOn(p)
  }

  /** A coroutine's knowledge is right, and an order still to be sent has not been sent. */
  ghost predicate ProcOk(p: Proc, rows: seq<Row>, sent: seq<nat>) {
    && Carries(p)
    && (About(p).Some? ==> About(p).value < |rows| && Knows(p, rows[About(p).value].status))
    && (p.PlaceWait? || p.PlaceHeld? || p.PlaceSend? ==> p.id !in sent)
  }

  ghost predicate SentOk(rows: seq<Row>, sent: seq<nat>) {
    && (forall i, j :: 0 <= i < j < |sent| ==> sent[i] != sent[j])
    && (forall id <- sent :: id < |rows|)
  }

  // ----- what one coroutine step does to the table -----

  /** How row `o` may change in a step of `p`: not at all, by its own placement under the lock, or from one
      acknowledged state to another, and then with the same status unless `p` is inside the lock. */
  ghost predicate RowFrame(p: Proc, o: nat, before: Row, after: Row) {
    || after == before
    || (Owner(p) == Some(o) && Holds(p) == Some(o))
    || (Placed(before.status) && Placed(after.status) && (after.status == before.status || Holds(p) == Some(o)))
  }

  ghost predicate Frame(p: Proc, rows: seq<Row>, after: seq<Row>) {
    |rows| <= |after| && forall o :: 0 <= o < |rows| ==> RowFrame(p, o, rows[o], after[o])
  }

  lemma NewRowOk(row: Row)
    requires row == NewRow(row.key, row.account, row.market, row.symbol, row.relation, row.qty, row.price, row.status,
                           row.brokerId)
    requires row.brokerId.Some? ==> row.status.Accepted?
    requires row.status.Approved? || row.status.Accepted? || row.status.Rejected?
    ensures RowOk(row)
  {
  }

  /** A legal write of `to` keeps the table right. */
  lemma WriteOk(rows: seq<Row>, id: nat, to: OrderState, update: Update)
    requires RowsOk(rows) && id < |rows| && CanTransition(rows[id].status, to)
    requires to.Canceled? || to.Expired? ==> Placed(rows[id].status)
    requires to.Accepted? || to.Submitted? || to.Rejected? || to.InDoubt? ==> !Placed(rows[id].status)
    requires to.Quarantined? ==> !Placed(rows[id].status) && rows[id].brokerId.None?
    requires !to.PartiallyFilled? && !to.Filled? && (update.BrokerId? ==> to.Accepted?)
    ensures RowsOk(Move(rows, id, to, update).0)
  {
    hide Chain, SumQty, SumValue, DistinctEvents, Positive, Fits;
    TransitionKeeps(rows[id], to);
    assert RowOk(rows[id]);
    assert RowOk(WithUpdate(Transition(rows[id], to).value, update));
  }

  lemma AppendOk(rows: seq<Row>, row: Row)
    requires RowsOk(rows) && RowOk(row)
    ensures RowsOk(Insert(rows, row).0)
  {
  }

  lemma BookOk(rows: seq<Row>, id: nat, f: Fill)
    requires RowsOk(rows) && id < |rows| && Placed(rows[id].status) && f.qty > 0.0
    ensures RowsOk(Book(rows, id, f).0)
    ensures Placed(Book(rows, id, f).0[id].status)
  {
    hide Chain, SumQty, SumValue, DistinctEvents, Positive, Remaining, HasEvent;
    assert RowOk(rows[id]);
    ApplyFillKeeps(rows[id], f);
    ApplyFillSameIds(rows[id], f);
  }

  lemma AmendOk(rows: seq<Row>, id: nat, ordNo: Option<string>, qty: real, price: real)
    requires RowsOk(rows) && id < |rows| && Placed(rows[id].status)
    ensures RowsOk(OrdersDb.Amend(rows, id, ordNo, qty, price).0)
  {
    hide Chain, SumQty, SumValue, DistinctEvents, Positive, Fits;
    assert RowOk(rows[id]);
    assert RowOk(rows[id].(brokerId := ordNo, qty := qty, price := Some(price)));
  }

  /** The effect of a step is right: the table stays right and changes only as framed, no transition attempted was
      illegal, and the coroutine knows what it needs for its next step. */
  ghost predicate EffectOk(p: Proc, rows: seq<Row>, sent: seq<nat>, eff: Effect) {
    && RowsOk(eff.rows)
    && Frame(p, rows, eff.rows)
    && eff.legal
    && SentOk(eff.rows, eff.sent)
    && (eff.sent == sent || (p.PlaceSend? && eff.sent == sent + [p.id]))
    && (eff.next.Some? ==> ProcOk(eff.next.value, eff.rows, eff.sent))
    && (eff.next.Some? && Owner(eff.next.value).Some?
        ==> Owner(eff.next.value) == Owner(p) || Owner(eff.next.value).value >= |rows|)
  }

  ghost predicate Before(p: Proc, rows: seq<Row>, sent: seq<nat>) {
    RowsOk(rows) && SentOk(rows, sent) && ProcOk(p, rows, sent)
  }

  ghost predicate OwnerOk(p: Proc, rows: seq<Row>, next: Option<Proc>) {
    next.Some? && Owner(next.value).Some? ==> Owner(next.value) == Owner(p) || Owner(next.value).value >= |rows|
  }

  /** A step that only reads. */
  lemma ReadOk(p: Proc, rows: seq<Row>, sent: seq<nat>, next: Option<Proc>)
    requires Before(p, rows, sent) && OwnerOk(p, rows, next)
    requires next.Some? ==> ProcOk(next.value, rows, sent)
    ensures EffectOk(p, rows, sent, Stay(rows, sent, next))
  {
    hide RowOk;
  }

  /** A step that inserts a row. */
  lemma InsertOk(p: Proc, rows: seq<Row>, sent: seq<nat>, row: Row, next: Option<Proc>)
    requires Before(p, rows, sent) && RowOk(row) && OwnerOk(p, rows, next)
    requires next.Some? ==> ProcOk(next.value, Insert(rows, row).0, sent)
    ensures EffectOk(p, rows, sent, Stay(Insert(rows, row).0, sent, next))
  {
    hide RowOk, Fits;
    AppendOk(rows, row);
  }

  /** A step that closes an acknowledged order inside its lock. */
  lemma CloseOk(p: Proc, rows: seq<Row>, sent: seq<nat>, id: nat, to: OrderState)
    requires Before(p, rows, sent) && id < |rows| && Holds(p) == Some(id)
    requires rows[id].status.Accepted? || rows[id].status.PartiallyFilled?
    requires to.Canceled? || to.Expired?
    ensures EffectOk(p, rows, sent, Write(rows, sent, id, to, Keep, None))
  {
    hide RowOk, Fits;
    WriteOk(rows, id, to, Keep);
  }

  lemma PlaceOk(p: Proc, a: Answer, rows: seq<Row>, sent: seq<nat>)
    requires Before(p, rows, sent) && IsPlace(p)
    ensures EffectOk(p, rows, sent, PlaceStep(p, a, rows, sent))
  {
    hide RowOk, EffectOk, Insert, Write;
    match p
    case Place(req) => InsertApproved(p, rows, sent);
    case PlaceHeld(id) => SubmitOk(p, rows, sent);
    case PlaceSend(id) => SendOk(p, rows, sent);
    case PlaceRecord(id, to, update) => RecordOk(p, rows, sent);
    case _ => ReadOk(p, rows, sent, PlaceStep(p, a, rows, sent).next);
  }

  lemma InsertApproved(p: Proc, rows: seq<Row>, sent: seq<nat>)
    requires Before(p, rows, sent) && p.Place?
    ensures EffectOk(p, rows, sent, PlaceStep(p, Failed, rows, sent))
  {
    hide RowOk, Fits;
    NewRowOk(Approve(p.req));
    AppendOk(rows, Approve(p.req));
  }

  lemma SubmitOk(p: Proc, rows: seq<Row>, sent: seq<nat>)
    requires Before(p, rows, sent) && p.PlaceHeld?
    ensures EffectOk(p, rows, sent, Write(rows, sent, p.id, Submitted, Keep, Some(PlaceSend(p.id))))
  {
    hide RowOk, Fits;
    UnplacedHasNoNumber(rows, p.id);
    WriteOk(rows, p.id, Submitted, Keep);
    KeepAlwaysFits(rows, p.id, Submitted);
  }

  lemma SendOk(p: Proc, rows: seq<Row>, sent: seq<nat>)
    requires Before(p, rows, sent) && p.PlaceSend?
    ensures EffectOk(p, rows, sent, Stay(rows, sent + [p.id], Some(PlaceSent(p.id))))
  {
    hide RowOk;
  }

  lemma RecordOk(p: Proc, rows: seq<Row>, sent: seq<nat>)
    requires Before(p, rows, sent) && p.PlaceRecord?
    ensures EffectOk(p, rows, sent, Write(rows, sent, p.id, p.to, p.update, None))
  {
    hide RowOk, Fits;
    UnplacedHasNoNumber(rows, p.id);
    WriteOk(rows, p.id, p.to, p.update);
  }

  lemma UnplacedHasNoNumber(rows: seq<Row>, id: nat)
    requires RowsOk(rows) && id < |rows| && !Placed(rows[id].status)
    ensures rows[id].brokerId.None?
  {
    assert RowOk(rows[id]);
  }

  lemma NumberedIsPlaced(rows: seq<Row>, id: nat)
    requires RowsOk(rows) && id < |rows| && rows[id].brokerId.Some?
    ensures Placed(rows[id].status)
  {
    assert RowOk(rows[id]);
  }

  lemma KeepAlwaysFits(rows: seq<Row>, id: nat, to: OrderState)
    requires id < |rows| && rows[id].brokerId.None?
    ensures !Move(rows, id, to, Keep).1.Conflict?
  {
  }

  lemma CancelOk(p: Proc, a: Answer, rows: seq<Row>, sent: seq<nat>)
    requires Before(p, rows, sent) && IsCancel(p)
    ensures EffectOk(p, rows, sent, CancelStep(p, a, rows, sent))
  {
    hide RowOk, EffectOk, Insert, Write;
    match p
    case CancelWrite(id) => CloseOk(p, rows, sent, id, Canceled);
    case CancelChild(id, child, ok) => ChildInserted(p, rows, sent, child, CancelStep(p, a, rows, sent).next);
    case Cancel(id) =>
      if id < |rows| && HasOrdNo(rows[id]) { NumberedIsPlaced(rows, id); }
      ReadOk(p, rows, sent, CancelStep(p, a, rows, sent).next);
    case _ => ReadOk(p, rows, sent, CancelStep(p, a, rows, sent).next);
  }

  lemma ChildInserted(p: Proc, rows: seq<Row>, sent: seq<nat>, child: Row, next: Option<Proc>)
    requires Before(p, rows, sent) && ChildOk(child)
    requires p.CancelChild? || p.AmendChild?
    requires next.Some? ==> (next.value.CancelWait? || next.value.AmendWrite?) && WorksOn(next.value) == WorksOn(p)
    ensures EffectOk(p, rows, sent, Stay(Insert(rows, child).0, sent, next))
  {
    hide RowOk, EffectOk, Fits;
    NewRowOk(child);
    InsertOk(p, rows, sent, child, next);
  }

  lemma AmendStepOk(p: Proc, a: Answer, rows: seq<Row>, sent: seq<nat>)
    requires Before(p, rows, sent) && IsAmend(p)
    ensures EffectOk(p, rows, sent, AmendStep(p, a, rows, sent))
  {
    hide RowOk, EffectOk, Insert, OrdersDb.Amend;
    match p
    case AmendWrite(id, ordNo, qty, price) => AmendWritten(p, rows, sent);
    case AmendChild(id, child, ok, _) => ChildInserted(p, rows, sent, child, AmendStep(p, a, rows, sent).next);
    case Amend(id, _, _) =>
      if id < |rows| && HasOrdNo(rows[id]) { NumberedIsPlaced(rows, id); }
      ReadOk(p, rows, sent, AmendStep(p, a, rows, sent).next);
    case _ => ReadOk(p, rows, sent, AmendStep(p, a, rows, sent).next);
  }

  lemma AmendWritten(p: Proc, rows: seq<Row>, sent: seq<nat>)
    requires Before(p, rows, sent) && p.AmendWrite?
    ensures EffectOk(p, rows, sent, Stay(OrdersDb.Amend(rows, p.id, p.ordNo, p.qty, p.price).0, sent, None))
  {
    hide RowOk, Fits;
    AmendOk(rows, p.id, p.ordNo, p.qty, p.price);
  }

  lemma ReconcileOk(p: Proc, a: Answer, rows: seq<Row>, sent: seq<nat>)
    requires Before(p, rows, sent) && IsReconcile(p)
    ensures EffectOk(p, rows, sent, ReconcileStep(p, a, rows, sent))
  {
    hide RowOk, EffectOk, Write, FillsOf, Matching;
    match p
    case GoneWrite(id, to) => CloseOk(p, rows, sent, id, to);
    case ExpireWrite(id) => CloseOk(p, rows, sent, id, Expired);
    case Reconcile(id, _, _) =>
      if id < |rows| && HasOrdNo(rows[id]) { NumberedIsPlaced(rows, id); }
      ReadOk(p, rows, sent, ReconcileStep(p, a, rows, sent).next);
    case _ => ReadOk(p, rows, sent, ReconcileStep(p, a, rows, sent).next);
  }

  predicate IsFills(p: Proc) {
    p.FillsWait? || p.FillsHeld? || p.Orphan? || p.Stream?
  }

  lemma FillsOk(p: Proc, rows: seq<Row>, sent: seq<nat>)
    requires Before(p, rows, sent) && IsFills(p)
    ensures EffectOk(p, rows, sent, FillsStep(p, rows, sent))
  {
    hide RowOk, EffectOk, Book, Insert, ByBroker, FillsOf;
    match p
    case FillsHeld(id, fills, closing, applied) =>
      if fills != [] {
        Booked(p, rows, sent);
      } else {
        ReadOk(p, rows, sent, FillsStep(p, rows, sent).next);
      }
    case Orphan(account, market, symbol, live, listed) =>
      if listed != [] {
        Registered(p, rows, sent);
      } else {
        ReadOk(p, rows, sent, None);
      }
    case Stream(acct, msg) =>
      var known := ByBroker(rows, acct, msg.ordrNo);
      if known.Some? { NumberedIsPlaced(rows, known.value); }
      ReadOk(p, rows, sent, FillsStep(p, rows, sent).next);
    case _ => ReadOk(p, rows, sent, FillsStep(p, rows, sent).next);
  }

  lemma Booked(p: Proc, rows: seq<Row>, sent: seq<nat>)
    requires Before(p, rows, sent) && p.FillsHeld? && p.fills != []
    ensures EffectOk(p, rows, sent, FillsStep(p, rows, sent))
  {
    hide RowOk, ApplyFill, HasEvent;
    BookOk(rows, p.id, p.fills[0]);
  }

  lemma Registered(p: Proc, rows: seq<Row>, sent: seq<nat>)
    requires Before(p, rows, sent) && p.Orphan? && p.listed != []
    ensures EffectOk(p, rows, sent, FillsStep(p, rows, sent))
  {
    hide RowOk, EffectOk, Fits;
    var row := OrphanRow(p.account, p.market, p.symbol, p.live, p.listed[0]);
    NewRowOk(row);
    InsertOk(p, rows, sent, row, FillsStep(p, rows, sent).next);
  }

  /** Every step of every coroutine has the effect its comments promise. */
  lemma StepOk(p: Proc, a: Answer, rows: seq<Row>, sent: seq<nat>)
    requires Before(p, rows, sent)
    ensures EffectOk(p, rows, sent, Step(p, a, rows, sent))
  {
    hide Before, EffectOk, PlaceStep, CancelStep, AmendStep, ReconcileStep, FillsStep;
    if IsCancel(p) {
      CancelOk(p, a, rows, sent);
    } else if IsReconcile(p) {
      ReconcileOk(p, a, rows, sent);
    } else if IsAmend(p) {
      AmendStepOk(p, a, rows, sent);
    } else if IsPlace(p) {
      PlaceOk(p, a, rows, sent);
    } else {
      FillsOk(p, rows, sent);
    }
  }
}
