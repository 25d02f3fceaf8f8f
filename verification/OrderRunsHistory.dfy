/** What whole runs never undo: finished orders, recorded history, what was sent to the broker. */
module OrderRunsHistory {
  import opened Wrappers
  import opened OrderStates
  import opened OrderLedger
  import opened OrdersDb
  import opened BrokerReports
  import opened OrderRuns
  import opened OrderRunsSafety
  import opened OrderRunsTheorems

  /** A later version of a row: same key and market, history only extended, and nothing left to happen once it is
      terminal. */
  ghost predicate Later(before: Row, after: Row) {
    && after.key == before.key && after.market == before.market && after.inserted == before.inserted
    && before.log <= after.log && before.fills <= after.fills
    && Rank(before.status) <= Rank(after.status)
    && (Terminal(before.status) ==>
          && after.status == before.status && after.log == before.log && after.fills == before.fills
          && after.filledQty == before.filledQty && after.avgPrice == before.avgPrice)
  }

  ghost predicate Extends(rows: seq<Row>, after: seq<Row>) {
    |rows| <= |after| && forall i :: 0 <= i < |rows| ==> Later(rows[i], after[i])
  }

  lemma LegalClimbs(frm: OrderState, to: OrderState)
    requires CanTransition(frm, to)
    ensures Rank(frm) < Rank(to)
  {
  }

  lemma MoveExtends(rows: seq<Row>, id: nat, to: OrderState, update: Update)
    ensures Extends(rows, Move(rows, id, to, update).0)
  {
    hide Fits;
    if id < |rows| && CanTransition(rows[id].status, to) {
      LegalClimbs(rows[id].status, to);
    }
  }

  lemma ApplyFillLater(row: Row, f: Fill)
    ensures Later(row, ApplyFill(row, f))
  {
    hide SumQty, SumValue, HasEvent, Remaining;
    if !Terminal(row.status) && !HasEvent(row.fills, f.eventSeq) {
      var to := Target(row, row.fills + [f]);
      if to != row.status && CanTransition(row.status, to) {
        LegalClimbs(row.status, to);
      }
    }
  }

  lemma BookExtends(rows: seq<Row>, id: nat, f: Fill)
    ensures Extends(rows, Book(rows, id, f).0)
  {
    hide ApplyFill, HasEvent;
    if id < |rows| {
      ApplyFillLater(rows[id], f);
    }
  }

  lemma InsertExtends(rows: seq<Row>, row: Row)
    ensures Extends(rows, Insert(rows, row).0)
  {
    hide Fits;
  }

  lemma AmendExtends(rows: seq<Row>, id: nat, ordNo: Option<string>, qty: real, price: real)
    ensures Extends(rows, OrdersDb.Amend(rows, id, ordNo, qty, price).0)
  {
    hide Fits;
  }

  lemma SameExtends(rows: seq<Row>)
    ensures Extends(rows, rows)
  {
  }

  lemma WriteExtends(rows: seq<Row>, after: seq<Row>)
    requires OneWrite(rows, after)
    ensures Extends(rows, after)
  {
    hide Extends, Insert, Move, Book, OrdersDb.Amend;
    SameExtends(rows);
    if row :| after == Insert(rows, row).0 {
      InsertExtends(rows, row);
    } else if id, to, update :| after == Move(rows, id, to, update).0 {
      MoveExtends(rows, id, to, update);
    } else if id, f :| after == Book(rows, id, f).0 {
      BookExtends(rows, id, f);
    } else if id, ordNo, qty, price :| after == OrdersDb.Amend(rows, id, ordNo, qty, price).0 {
      AmendExtends(rows, id, ordNo, qty, price);
    }
  }

  lemma NextExtends(s: Sys, e: Event)
    ensures Extends(s.rows, Next(s, e).rows)
  {
    hide Extends, Step, Relock, Move, OneWrite;
    SameExtends(s.rows);
    match e
    case Go(pid, a) =>
      if pid in s.procs {
        StepWrites(s.procs[pid], a, s.rows, s.sent);
        WriteExtends(s.rows, Step(s.procs[pid], a, s.rows, s.sent).rows);
      }
    case Quarantine(id) => MoveExtends(s.rows, id, Quarantined, Keep);
    case _ =>
  }

  lemma ExtendsTransitive(a: seq<Row>, b: seq<Row>, c: seq<Row>)
    requires Extends(a, b) && Extends(b, c)
    ensures Extends(a, c)
  {
    forall i | 0 <= i < |a| ensures Later(a[i], c[i]) {
      assert Later(a[i], b[i]) && Later(b[i], c[i]);
    }
  }

  lemma {:induction false} RunExtends(s: Sys, events: seq<Event>)
    ensures Extends(s.rows, Run(s, events).rows)
  {
    hide Extends, Next;
    SameExtends(s.rows);
    if events != [] {
      var mid := Run(s, events[..|events| - 1]);
      RunExtends(s, events[..|events| - 1]);
      NextExtends(mid, events[|events| - 1]);
      ExtendsTransitive(s.rows, mid.rows, Run(s, events).rows);
    }
  }

  lemma BootInv(s: Sys)
    requires Boot(s)
    ensures Inv(s)
  {
  }

  /** No coroutine ever attempts an illegal transition. */
  lemma NoIllegalTransition(s: Sys, events: seq<Event>)
    requires Boot(s)
    ensures !Run(s, events).refused
  {
    BootInv(s);
    RunKeeps(s, events);
  }

  /** A finished order stays as it is, in any continuation of any run: FILLED is never overwritten. */
  lemma FinishedStaysFinished(s: Sys, events: seq<Event>, id: nat)
    requires id < |s.rows| && Terminal(s.rows[id].status)
    ensures var rows := Run(s, events).rows;
            && id < |rows| && rows[id].status == s.rows[id].status && rows[id].log == s.rows[id].log
            && rows[id].fills == s.rows[id].fills && rows[id].filledQty == s.rows[id].filledQty
            && rows[id].avgPrice == s.rows[id].avgPrice
  {
    RunExtends(s, events);
    assert Later(s.rows[id], Run(s, events).rows[id]);
  }

  /** After any run every order's aggregates are those of its fills, and its log is a legal history of at most five
      changes from the state it was inserted in to the state it is in. */
  lemma LedgerAlwaysRight(s: Sys, events: seq<Event>, id: nat)
    requires Boot(s) && id < |Run(s, events).rows|
    ensures RowInv(Run(s, events).rows[id])
    ensures |Run(s, events).rows[id].log| <= 5
  {
    hide Run, Stored;
    BootInv(s);
    RunKeeps(s, events);
    var row := Run(s, events).rows[id];
    assert RowOk(row);
    AtMostFiveChanges(row.inserted, row.log, row.status);
  }

  /** Each client order id reaches the broker at most once. */
  lemma AtMostOnePlacementPerKey(s: Sys, events: seq<Event>, i: nat, j: nat)
    requires Boot(s) && i < j < |Run(s, events).sent|
    ensures var t := Run(s, events);
            t.sent[i] < |t.rows| && t.sent[j] < |t.rows| && t.rows[t.sent[i]].key != t.rows[t.sent[j]].key
  {
    hide Run, RowsOk, ProcsOk;
    BootInv(s);
    RunKeeps(s, events);
    var t := Run(s, events);
    assert t.sent[i] in t.sent && t.sent[j] in t.sent;
    assert t.sent[i] != t.sent[j];
    if t.sent[i] < t.sent[j] {
      assert t.rows[t.sent[i]].key != t.rows[t.sent[j]].key;
    } else {
      assert t.rows[t.sent[j]].key != t.rows[t.sent[i]].key;
    }
  }

  // ----- in-doubt orders -----

  /** Nobody is placing order `id`. */
  ghost predicate NotBeingPlaced(s: Sys, id: nat) {
    id < |s.rows| && forall pid <- s.procs :: Owner(s.procs[pid]) != Some(id)
  }

  ghost predicate NotSentSince(s: Sys, from: nat, id: nat) {
    from <= |s.sent| && id !in s.sent[from..]
  }

  lemma NextDoesNotSend(s: Sys, e: Event, from: nat, id: nat)
    requires Inv(s) && NotBeingPlaced(s, id) && NotSentSince(s, from, id)
    ensures NotBeingPlaced(Next(s, e), id) && NotSentSince(Next(s, e), from, id)
  {
    hide Step, Stored, RowsOk, SentOk, ProcOk, Frame, OneOwner, LocksOk, Relock, Holds;
    match e
    case Go(pid, a) =>
      if pid in s.procs {
        var p := s.procs[pid];
        var eff := Step(p, a, s.rows, s.sent);
        StepOk(p, a, s.rows, s.sent);
        FrameGrows(p, s.rows, eff.rows);
        assert Owner(p) != Some(id);
        assert eff.sent == s.sent || eff.sent[from..] == s.sent[from..] + [p.id];
      }
    case Quarantine(q) =>
    case _ =>
  }

  lemma FrameGrows(p: Proc, rows: seq<Row>, after: seq<Row>)
    requires Frame(p, rows, after)
    ensures |rows| <= |after|
  {
  }

  lemma {:induction false} RunDoesNotSend(s: Sys, events: seq<Event>, id: nat)
    requires Inv(s) && NotBeingPlaced(s, id)
    ensures var t := Run(s, events); NotBeingPlaced(t, id) && NotSentSince(t, |s.sent|, id)
  {
    hide Inv, Next, NotBeingPlaced;
    if events != [] {
      RunKeeps(s, events[..|events| - 1]);
      RunDoesNotSend(s, events[..|events| - 1], id);
      NextDoesNotSend(Run(s, events[..|events| - 1]), events[|events| - 1], |s.sent|, id);
    }
  }

  /** An order in doubt is never sent again, however the run goes on; nor is any order past its submission. */
  lemma InDoubtIsNeverResent(s: Sys, events: seq<Event>, id: nat)
    requires Inv(s) && id < |s.rows|
    requires !s.rows[id].status.Approved? && !s.rows[id].status.Submitted?
    ensures NotSentSince(Run(s, events), |s.sent|, id)
  {
    forall pid | pid in s.procs ensures Owner(s.procs[pid]) != Some(id) {
      assert ProcOk(s.procs[pid], s.rows, s.sent);
    }
    RunDoesNotSend(s, events, id);
  }

  // ----- the locks -----

  /** A coroutine inside a lock never waits for one, so the holder of a lock can always go on. */
  lemma HoldersNeverWait(s: Sys, pid: nat, a: Answer)
    requires pid in s.procs && Holds(s.procs[pid]).Some?
    ensures !Blocked(s, s.procs[pid], Step(s.procs[pid], a, s.rows, s.sent).next)
  {
    hide Move, Book, Insert;
  }

  /** Locks are never leaked: every lock taken is held by a coroutine that is still there and inside it. */
  lemma {:induction false} NoLockLeaks(s: Sys, events: seq<Event>, id: nat)
    requires Boot(s) && id in Run(s, events).locks
    ensures var t := Run(s, events);
            t.locks[id] in t.procs && Holds(t.procs[t.locks[id]]) == Some(id)
  {
    hide Run, Stored, RowsOk, SentOk, ProcsOk, OneOwner;
    BootInv(s);
    RunKeeps(s, events);
  }

  // ----- where placements and sends come from -----

  /** A step makes no new request; it takes over a placement only by inserting its own request's row, and it sends
      only the order it is placing. */
  lemma PlacementLineage(p: Proc, a: Answer, rows: seq<Row>, sent: seq<nat>)
    ensures var eff := Step(p, a, rows, sent);
            && (eff.next.Some? ==> !eff.next.value.Place?)
            && (eff.next.Some? && Owner(eff.next.value).Some? ==>
                  || Owner(eff.next.value) == Owner(p)
                  || (p.Place? && Owner(eff.next.value) == Some(|rows|) && eff.rows == rows + [Approve(p.req)]))
            && (eff.sent == sent || (p.PlaceSend? && eff.sent == sent + [p.id]))
  {
    hide Move, Book, OrdersDb.Amend, FillsOf, Matching, ByBroker, Child, Cancelable, Fits, Tc3ToFill, OrphanRow;
    if !IsPlace(p) {
      OthersPlaceNothing(p, a, rows, sent);
    }
  }

  ghost predicate PlacesNothing(eff: Effect, sent: seq<nat>) {
    eff.sent == sent && (eff.next.Some? ==> !eff.next.value.Place? && Owner(eff.next.value).None?)
  }

  lemma CancelPlacesNothing(p: Proc, a: Answer, rows: seq<Row>, sent: seq<nat>)
    ensures PlacesNothing(CancelStep(p, a, rows, sent), sent)
  {
    hide Insert, Move, Child, Cancelable;
  }

  lemma AmendPlacesNothing(p: Proc, a: Answer, rows: seq<Row>, sent: seq<nat>)
    ensures PlacesNothing(AmendStep(p, a, rows, sent), sent)
  {
    hide Insert, OrdersDb.Amend, Child;
  }

  lemma ReconcilePlacesNothing(p: Proc, a: Answer, rows: seq<Row>, sent: seq<nat>)
    ensures PlacesNothing(ReconcileStep(p, a, rows, sent), sent)
  {
    hide Move, FillsOf, Matching;
  }

  lemma FillsPlaceNothing(p: Proc, rows: seq<Row>, sent: seq<nat>)
    ensures PlacesNothing(FillsStep(p, rows, sent), sent)
  {
    hide Insert, Book, FillsOf, ByBroker, Tc3ToFill, OrphanRow;
  }

  lemma OthersPlaceNothing(p: Proc, a: Answer, rows: seq<Row>, sent: seq<nat>)
    requires !IsPlace(p)
    ensures PlacesNothing(Step(p, a, rows, sent), sent)
  {
    hide PlacesNothing, PlaceStep, CancelStep, AmendStep, ReconcileStep, FillsStep;
    CancelPlacesNothing(p, a, rows, sent);
    AmendPlacesNothing(p, a, rows, sent);
    ReconcilePlacesNothing(p, a, rows, sent);
    FillsPlaceNothing(p, rows, sent);
  }
}
