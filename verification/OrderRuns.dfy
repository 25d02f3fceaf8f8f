/** Concurrent order handling: the coroutines of server/app/services/order_service.py and of the realtime fill
    source, cut at their await points, sharing one table and one lock per order. */
module OrderRuns {
  import opened Wrappers
  import opened OrderStates
  import opened OrderLedger
  import opened OrdersDb
  import opened BrokerReports

  /** What `place` stores about an intent that passed the gate. */
  datatype Request = Request(key: string, account: Option<nat>, market: string, symbol: string, qty: real,
                             price: Option<real>)

  /** A coroutine at an await point. `id` is the order it works on. */
  datatype Proc =
    | Place(req: Request)
    | PlaceWait(id: nat)                                      // for the lock
    | PlaceHeld(id: nat)                                      // before the SUBMITTED write
    | PlaceSend(id: nat)                                      // before the broker call
    | PlaceSent(id: nat)                                      // for the broker's answer
    | PlaceRecord(id: nat, to: OrderState, update: Update)    // before the result is written
    | Cancel(id: nat)
    | CancelSent(id: nat, parent: Row)
    | CancelChild(id: nat, child: Row, ok: bool)
    | CancelWait(id: nat)
    | CancelHeld(id: nat)
    | CancelWrite(id: nat)
    | Amend(id: nat, qty: real, price: real)
    | AmendSent(id: nat, parent: Row, qty: real, price: real)
    | AmendChild(id: nat, child: Row, ok: bool, ordNo: Option<string>)
    | AmendWrite(id: nat, ordNo: Option<string>, qty: real, price: real)
    | Reconcile(id: nat, live: bool, closing: bool)
    | Fetched(id: nat, asked: string, live: bool, closing: bool)
    | GoneWait(id: nat, to: OrderState)
    | GoneHeld(id: nat, to: OrderState)
    | GoneWrite(id: nat, to: OrderState)
    | FillsWait(id: nat, fills: seq<Fill>, closing: bool)
    | FillsHeld(id: nat, fills: seq<Fill>, closing: bool, applied: bool)
    | ExpireWrite(id: nat)
    | Orphan(account: Option<nat>, market: string, symbol: string, live: bool, listed: seq<BrokerRow>)
    | Stream(acct: nat, msg: Tc3)

  /** What the outside world gives back at an await point. */
  datatype Answer = Ack(ok: bool, ordNo: Option<string>, nonce: string) | Listed(listed: seq<BrokerRow>) | Failed

  /** The order whose creation `p` is completing. */
  function Owner(p: Proc): Option<nat> {
    match p
    case PlaceWait(id) => Some(id)
    case PlaceHeld(id) => Some(id)
    case PlaceSend(id) => Some(id)
    case PlaceSent(id) => Some(id)
    case PlaceRecord(id, _, _) => Some(id)
    case _ => None
  }

  /** The order whose lock `p` is inside. */
  function Holds(p: Proc): Option<nat> {
    match p
    case PlaceHeld(id) => Some(id)
    case PlaceSend(id) => Some(id)
    case PlaceSent(id) => Some(id)
    case PlaceRecord(id, _, _) => Some(id)
    case CancelHeld(id) => Some(id)
    case CancelWrite(id) => Some(id)
    case GoneHeld(id, _) => Some(id)
    case GoneWrite(id, _) => Some(id)
    case FillsHeld(id, _, _, _) => Some(id)
    case ExpireWrite(id) => Some(id)
    case _ => None
  }

  /** What one step did: the table, the orders sent to the broker so far, whether every attempted transition was
      legal, and where the coroutine stopped next (None when it returned or raised). */
  datatype Effect = Effect(rows: seq<Row>, sent: seq<nat>, legal: bool, next: Option<Proc>)

  function Stay(rows: seq<Row>, sent: seq<nat>, next: Option<Proc>): Effect {
    Effect(rows, sent, true, next)
  }

  /** A `transition` call; an error ends the coroutine. */
  function Write(rows: seq<Row>, sent: seq<nat>, id: nat, to: OrderState, update: Update, next: Option<Proc>): Effect {
    var (after, res) := Move(rows, id, to, update);
    Effect(after, sent, !res.Illegal?, if res.Moved? then next else None)
  }

  function Approve(req: Request): Row {
    NewRow(req.key, req.account, req.market, req.symbol, New, req.qty, req.price, Approved, None)
  }

  function PlaceStep(p: Proc, a: Answer, rows: seq<Row>, sent: seq<nat>): Effect {
    match p
    case Place(req) =>
      var (after, res) := Insert(rows, Approve(req));
      Stay(after, sent, if res.Created? then Some(PlaceWait(res.id)) else None)
    case PlaceWait(id) => Stay(rows, sent, Some(PlaceHeld(id)))
    case PlaceHeld(id) => Write(rows, sent, id, Submitted, Keep, Some(PlaceSend(id)))
    case PlaceSend(id) => Stay(rows, sent + [id], Some(PlaceSent(id)))
    case PlaceSent(id) =>
      Stay(rows, sent, Some(match a
                            case Ack(ok, ordNo, _) =>
                              if ok then PlaceRecord(id, Accepted, BrokerId(ordNo)) else PlaceRecord(id, Rejected, Keep)
                            case _ => PlaceRecord(id, InDoubt, Keep)))
    case PlaceRecord(id, to, update) => Write(rows, sent, id, to, update, None)
    case _ => Stay(rows, sent, None)
  }

  predicate HasOrdNo(row: Row) {
    row.brokerId.Some? && row.brokerId.value != ""
  }

  /** The audit row of an amendment or cancellation. */
  function Child(parent: Row, relation: Relation, a: Answer, qty: real, price: Option<real>): Row
    requires a.Ack?
  {
    NewRow(parent.key + (if relation.Modify? then ":modify:" else ":cancel:") + a.nonce, parent.account,
           parent.market, parent.symbol, relation, qty, price, if a.ok then Accepted else Rejected, None)
  }

  predicate Cancelable(s: OrderState) {
    s.Submitted? || s.Accepted? || s.PartiallyFilled? || s.InDoubt?
  }

  function CancelStep(p: Proc, a: Answer, rows: seq<Row>, sent: seq<nat>): Effect {
    match p
    case Cancel(id) => Stay(rows, sent, if id < |rows| && HasOrdNo(rows[id]) then Some(CancelSent(id, rows[id])) else None)
    case CancelSent(id, parent) =>
      Stay(rows, sent, if a.Ack? then Some(CancelChild(id, Child(parent, Relation.Cancel, a, parent.qty, parent.price), a.ok))
                       else None)
    case CancelChild(id, child, ok) =>
      var (after, res) := Insert(rows, child);
      Stay(after, sent, if ok && !res.Raised? then Some(CancelWait(id)) else None)
    case CancelWait(id) => Stay(rows, sent, Some(CancelHeld(id)))
    case CancelHeld(id) =>
      Stay(rows, sent, if id < |rows| && Cancelable(rows[id].status) then Some(CancelWrite(id)) else None)
    case CancelWrite(id) => Write(rows, sent, id, Canceled, Keep, None)
    case _ => Stay(rows, sent, None)
  }

  function AmendStep(p: Proc, a: Answer, rows: seq<Row>, sent: seq<nat>): Effect {
    match p
    case Amend(id, qty, price) =>
      Stay(rows, sent, if id < |rows| && HasOrdNo(rows[id]) then Some(AmendSent(id, rows[id], qty, price)) else None)
    case AmendSent(id, parent, qty, price) =>
      Stay(rows, sent, if a.Ack? then Some(AmendChild(id, Child(parent, Modify, a, qty, Some(price)), a.ok, a.ordNo))
                       else None)
    case AmendChild(id, child, ok, ordNo) =>
      var (after, res) := Insert(rows, child);
      Stay(after, sent, if ok && !res.Raised? then Some(AmendWrite(id, ordNo, child.qty, child.price.GetOr(0.0))) else None)
    case AmendWrite(id, ordNo, qty, price) => Stay(OrdersDb.Amend(rows, id, ordNo, qty, price).0, sent, None)
    case _ => Stay(rows, sent, None)
  }

  /** One order's part of `_reconcile_paper` (or, with `live`, of `_reconcile_live`). */
  function ReconcileStep(p: Proc, a: Answer, rows: seq<Row>, sent: seq<nat>): Effect {
    match p
    case Reconcile(id, live, closing) =>
      Stay(rows, sent,
           if id < |rows| && !Terminal(rows[id].status) && rows[id].relation.New? && HasOrdNo(rows[id])
           then Some(Fetched(id, rows[id].brokerId.value, live, closing)) else None)
    case Fetched(id, asked, live, closing) =>
      Stay(rows, sent,
           if !a.Listed? then None
           else
             var matched := Matching(a.listed, asked);
             if matched != [] then Some(FillsWait(id, FillsOf(matched), closing && !live))
             else if live then None
             else Some(GoneWait(id, if closing then Expired else Canceled)))
    case GoneWait(id, to) => Stay(rows, sent, Some(GoneHeld(id, to)))
    case GoneHeld(id, to) =>
      Stay(rows, sent, if id < |rows| && !Terminal(rows[id].status) then Some(GoneWrite(id, to)) else None)
    case GoneWrite(id, to) => Write(rows, sent, id, to, Keep, None)
    case ExpireWrite(id) => Write(rows, sent, id, Expired, Keep, None)
    case _ => Stay(rows, sent, None)
  }

  /** The order `_register_orphan` (or `_register_orphan_live`) inserts for rows nobody knows. */
  function OrphanRow(account: Option<nat>, market: string, symbol: string, live: bool, first: BrokerRow): Row {
    NewRow(if live then "recon:" + market + ":" + first.ordNo else "recon:" + first.ordNo, account, market, symbol, New,
           if first.qty == 0 then 1.0 else first.qty as real, first.price, Accepted, Some(first.ordNo))
  }

  predicate NumberedAs(row: Row, account: nat, ordNo: string) {
    row.account == Some(account) && row.brokerId == Some(ordNo)
  }

  /** `get_order_by_broker`. */
  function ByBroker(rows: seq<Row>, account: nat, ordNo: string): (r: Option<nat>)
    ensures r.Some? ==> r.value < |rows| && NumberedAs(rows[r.value], account, ordNo)
    ensures r.None? ==> forall i :: 0 <= i < |rows| ==> !NumberedAs(rows[i], account, ordNo)
  {
    if rows == [] then None
    else if NumberedAs(rows[|rows| - 1], account, ordNo) then Some(|rows| - 1)
    else ByBroker(rows[..|rows| - 1], account, ordNo)
  }

  function FillsStep(p: Proc, rows: seq<Row>, sent: seq<nat>): Effect {
    match p
    case FillsWait(id, fills, closing) => Stay(rows, sent, Some(FillsHeld(id, fills, closing, false)))
    case FillsHeld(id, fills, closing, applied) =>
      if fills != [] then
        var (after, took) := Book(rows, id, fills[0]);
        Stay(after, sent, Some(FillsHeld(id, fills[1..], closing, applied || took)))
      else
        Stay(rows, sent, if !applied && closing && id < |rows| && rows[id].status.Accepted?
                         then Some(ExpireWrite(id)) else None)
    case Orphan(account, market, symbol, live, listed) =>
      if listed == [] then Stay(rows, sent, None)
      else
        var (after, res) := Insert(rows, OrphanRow(account, market, symbol, live, listed[0]));
        Stay(after, sent, if res.Created? then Some(FillsWait(res.id, FillsOf(listed), false)) else None)
    case Stream(acct, msg) =>
      var fill := Tc3ToFill(msg);
      if fill.None? then Stay(rows, sent, None)
      else
        var known := ByBroker(rows, acct, msg.ordrNo);
        Stay(rows, sent, if known.Some? then Some(FillsWait(known.value, [fill.value], false)) else None)
    case _ => Stay(rows, sent, None)
  }

  predicate IsPlace(p: Proc) {
    p.Place? || p.PlaceWait? || p.PlaceHeld? || p.PlaceSend? || p.PlaceSent? || p.PlaceRecord?
  }

  predicate IsCancel(p: Proc) {
    p.Cancel? || p.CancelSent? || p.CancelChild? || p.CancelWait? || p.CancelHeld? || p.CancelWrite?
  }

  predicate IsAmend(p: Proc) {
    p.Amend? || p.AmendSent? || p.AmendChild? || p.AmendWrite?
  }

  predicate IsReconcile(p: Proc) {
    p.Reconcile? || p.Fetched? || p.GoneWait? || p.GoneHeld? || p.GoneWrite? || p.ExpireWrite?
  }

  function Step(p: Proc, a: Answer, rows: seq<Row>, sent: seq<nat>): Effect {
    if IsPlace(p) then PlaceStep(p, a, rows, sent)
    else if IsCancel(p) then CancelStep(p, a, rows, sent)
    else if IsAmend(p) then AmendStep(p, a, rows, sent)
    else if IsReconcile(p) then ReconcileStep(p, a, rows, sent)
    else FillsStep(p, rows, sent)
  }

  // ----- every step commits at most one repository operation -----

  ghost predicate OneWrite(rows: seq<Row>, after: seq<Row>) {
    || after == rows
    || (exists row :: after == Insert(rows, row).0)
    || (exists id, to, update :: after == Move(rows, id, to, update).0)
    || (exists id, f :: after == Book(rows, id, f).0)
    || (exists id, ordNo, qty, price :: after == OrdersDb.Amend(rows, id, ordNo, qty, price).0)
  }

  lemma PlaceWrites(p: Proc, a: Answer, rows: seq<Row>, sent: seq<nat>)
    ensures OneWrite(rows, PlaceStep(p, a, rows, sent).rows)
  {
    hide Insert, Move;
  }

  lemma CancelWrites(p: Proc, a: Answer, rows: seq<Row>, sent: seq<nat>)
    ensures OneWrite(rows, CancelStep(p, a, rows, sent).rows)
  {
    hide Insert, Move, Child;
  }

  lemma AmendWrites(p: Proc, a: Answer, rows: seq<Row>, sent: seq<nat>)
    ensures OneWrite(rows, AmendStep(p, a, rows, sent).rows)
  {
    hide Insert, OrdersDb.Amend, Child;
  }

  lemma ReconcileWrites(p: Proc, a: Answer, rows: seq<Row>, sent: seq<nat>)
    ensures OneWrite(rows, ReconcileStep(p, a, rows, sent).rows)
  {
    hide Move, FillsOf, Matching;
  }

  lemma FillsWrites(p: Proc, rows: seq<Row>, sent: seq<nat>)
    ensures OneWrite(rows, FillsStep(p, rows, sent).rows)
  {
    hide Insert, Book, FillsOf, ByBroker, OrphanRow, Tc3ToFill;
  }

  lemma StepWrites(p: Proc, a: Answer, rows: seq<Row>, sent: seq<nat>)
    ensures OneWrite(rows, Step(p, a, rows, sent).rows)
  {
    hide OneWrite, PlaceStep, CancelStep, AmendStep, ReconcileStep, FillsStep;
    PlaceWrites(p, a, rows, sent);
    CancelWrites(p, a, rows, sent);
    AmendWrites(p, a, rows, sent);
    ReconcileWrites(p, a, rows, sent);
    FillsWrites(p, rows, sent);
  }

  // ----- the whole system -----

  /** `refused` records whether any coroutine ever attempted an illegal transition. */
  datatype Sys = Sys(rows: seq<Row>, locks: map<nat, nat>, procs: map<nat, Proc>, sent: seq<nat>, refused: bool)

  predicate Fresh(p: Proc) {
    p.Place? || p.Cancel? || p.Amend? || p.Reconcile? || p.Orphan? || p.Stream?
  }

  /** `Abort` cancels a coroutine at its await point; `Crash` ends the server process; `Quarantine` is the boot
      that follows, which runs before any coroutine starts. */
  datatype Event = Spawn(pid: nat, p: Proc) | Go(pid: nat, a: Answer) | Abort(pid: nat) | Crash | Quarantine(id: nat)

  predicate Unresolved(row: Row) {
    (row.status.Submitted? || row.status.InDoubt?) && !HasOrdNo(row)
  }

  /** The lock table after coroutine `pid` moved from holding `had` to holding `has`. */
  function Relock(locks: map<nat, nat>, pid: nat, had: Option<nat>, has: Option<nat>): map<nat, nat> {
    var freed := if had.Some? then locks - {had.value} else locks;
    if has.Some? then freed[has.value := pid] else freed
  }

  function HoldsNext(next: Option<Proc>): Option<nat> {
    if next.Some? then Holds(next.value) else None
  }

  predicate Blocked(s: Sys, p: Proc, next: Option<Proc>) {
    var has := HoldsNext(next);
    has.Some? && Holds(p) != has && has.value in s.locks
  }

  function Next(s: Sys, e: Event): Sys {
    match e
    case Spawn(pid, p) => if pid in s.procs || !Fresh(p) then s else s.(procs := s.procs[pid := p])
    case Go(pid, a) =>
      if pid !in s.procs then s
      else
        var p := s.procs[pid];
        var eff := Step(p, a, s.rows, s.sent);
        if Blocked(s, p, eff.next) then s
        else
          Sys(eff.rows, Relock(s.locks, pid, Holds(p), HoldsNext(eff.next)),
              if eff.next.Some? then s.procs[pid := eff.next.value] else s.procs - {pid},
              eff.sent, s.refused || !eff.legal)
    case Abort(pid) =>
      if pid !in s.procs then s
      else s.(locks := Relock(s.locks, pid, Holds(s.procs[pid]), None), procs := s.procs - {pid})
    case Crash => s.(locks := map[], procs := map[])
    case Quarantine(id) =>
      if s.procs != map[] || id >= |s.rows| || !Unresolved(s.rows[id]) then s
      else
        var (after, res) := Move(s.rows, id, Quarantined, Keep);
        s.(rows := after, refused := s.refused || res.Illegal?)
  }

  function Run(s: Sys, events: seq<Event>): Sys {
    if events == [] then s else Next(Run(s, events[..|events| - 1]), events[|events| - 1])
  }
}
