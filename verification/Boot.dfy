/** Booting the paper bucket (server/app/orders/boot.py): reconcile, quarantine what stays unresolved, decide the
    engine state. */
module Boot {
  import opened EntryLockout
  import opened OrderLedger
  import OrderReconcile
  import opened OrderRuns
  import OrderRunsTheorems
  import opened OrdersDb
  import opened OrderService
  import opened OrderStates
  import opened ReconcileRuns
  import RiskGate
  import opened Wrappers

  datatype Engine = ReadOnly | Reconciling | Trading

  class EngineState {
    var state: Engine

    constructor ()
      ensures state.ReadOnly?
    {
      state := ReadOnly;
    }
  }

  predicate Stuck(row: Row) {
    OpenPaper(row) && Unresolved(row)
  }

  function Isolated(row: Row): Row {
    if Stuck(row) then row.(status := Quarantined, log := row.log + [Entry(row.status, Quarantined)]) else row
  }

  function IsolatedAll(rows: seq<Row>): seq<Row> {
    seq(|rows|, i requires 0 <= i < |rows| => Isolated(rows[i]))
  }

  /** Quarantine what the reconciliation could not resolve, with one critical event per order. */
  method QuarantineUnresolved(repo: OrdersRepo) returns (quarantined: seq<nat>, events: seq<nat>)
    requires Stored(repo.rows)
    modifies repo
    ensures Stored(repo.rows) && repo.rows == IsolatedAll(old(repo.rows))
    ensures forall id :: id in quarantined <==> 0 <= id < |old(repo.rows)| && Stuck(old(repo.rows)[id])
    ensures forall i, j :: 0 <= i < j < |quarantined| ==> quarantined[i] < quarantined[j]
    ensures events == quarantined
  {
    hide Stored, Move;
    ghost var reconciled := repo.rows;
    quarantined, events := [], [];
    var id, n := 0, |repo.rows|;
    while id < n
      invariant 0 <= id <= n == |repo.rows| == |reconciled| && Stored(repo.rows)
      invariant forall k :: 0 <= k < id ==> repo.rows[k] == Isolated(reconciled[k])
      invariant forall k :: id <= k < n ==> repo.rows[k] == reconciled[k]
      invariant forall k :: k in quarantined <==> 0 <= k < id && Stuck(reconciled[k])
      invariant forall i, j :: 0 <= i < j < |quarantined| ==> quarantined[i] < quarantined[j]
      invariant forall i :: 0 <= i < |quarantined| ==> quarantined[i] < id
      invariant events == quarantined
    {
      if OpenPaper(repo.rows[id]) && Unresolved(repo.rows[id]) {
        OrderReconcile.MoveKeep(repo.rows, id, Quarantined);
        var moved := repo.ChangeState(id, Quarantined, Keep);
        quarantined := quarantined + [id];
        events := events + [id];
      }
      id := id + 1;
    }
  }

  /** The boot of the paper bucket. The reconciliation may raise, because the broker does not answer one of its queries
      or by itself; `synced` says whether the position query answered. One critical event is emitted per quarantined
      order. */
  method BootPaperBucket(service: OrderService, engine: EngineState, intentActive: bool, feed: Feed, synced: bool)
    returns (raised: bool, quarantined: seq<nat>, events: seq<nat>, entryBlocked: bool)
    requires Stored(service.repo.rows) && !feed.live
    modifies engine, service.repo
    ensures Stored(service.repo.rows)
    ensures raised == ReconcileRun(feed, old(service.repo.rows)).1
    ensures engine.state == if intentActive && synced && !raised then Trading else ReadOnly
    ensures raised ==>
      service.repo.rows == ReconcileRun(feed, old(service.repo.rows)).0 && quarantined == events == []
    ensures !raised ==>
      var reconciled := ReconcileRun(feed, old(service.repo.rows)).0;
      && service.repo.rows == IsolatedAll(reconciled)
      && (forall id :: id in quarantined <==> 0 <= id < |reconciled| && Stuck(reconciled[id]))
      && (forall i, j :: 0 <= i < j < |quarantined| ==> quarantined[i] < quarantined[j])
      && events == quarantined
      && entryBlocked == HasQuarantined(service.repo.rows, RiskGate.Paper)
  {
    hide Stored, HasQuarantined, ReconcileRun, IsolatedAll, Stuck;
    quarantined, events, entryBlocked := [], [], false;
    engine.state := Reconciling;
    var counts;
    raised, counts := service.Reconcile(feed);
    if raised {
      engine.state := ReadOnly;
      return;
    }
    quarantined, events := QuarantineUnresolved(service.repo);
    entryBlocked := QueryQuarantined(service.repo.rows, RiskGate.Paper);
    engine.state := if intentActive && synced then Trading else ReadOnly;
  }

  /** After the boot no open paper order is left whose fate at the broker is unknown: it was never sent, or it has an
      order number. What was unknown blocks entries. */
  lemma BootLeavesNothingUnknown(rows: seq<Row>, id: nat)
    requires id < |rows|
    ensures var row := IsolatedAll(rows)[id];
            !Terminal(row.status) && row.relation.New? && row.market == FUTURES ==>
              row.status.Approved? || row.status.Accepted? || row.status.PartiallyFilled?
              || (row.brokerId.Some? && row.brokerId.value != "")
    ensures Stuck(rows[id]) ==> HasQuarantined(IsolatedAll(rows), RiskGate.Paper)
    ensures if rows[id].market == "overseas_futureoption" && rows[id].relation.New?
               && (rows[id].status.Submitted? || rows[id].status.InDoubt?)
               && (rows[id].brokerId.None? || rows[id].brokerId.value == "")
            then IsolatedAll(rows)[id].status.Quarantined? && Stuck(rows[id]) else IsolatedAll(rows)[id] == rows[id]
  {
    if Stuck(rows[id]) {
      assert IsolatedAll(rows)[id].status.Quarantined?;
    }
  }

  /** An order the boot could not resolve keeps every entry out, whatever happens after the boot: nothing that does not
      reduce a position gets past the gate, and nothing but such orders, admitted after the boot, is sent. */
  lemma UnresolvedAtBootLocksEntries(d: Desk, before: seq<Row>, id: nat, events: seq<EntryLockout.Event>)
    requires d.bucket.Paper? && d.sys.rows == IsolatedAll(before) && d.sys.procs == map[]
    requires OrderRunsTheorems.Inv(d.sys)
    requires id < |before| && Stuck(before[id])
    ensures var t := EntryLockout.Run(d, events);
            && OnlyExitsSince(t, |d.admitted|)
            && |d.sys.sent| <= |t.sys.sent|
            && forall i :: |d.sys.sent| <= i < |t.sys.sent| ==> SentAsExit(d, t, t.sys.sent[i])
  {
    hide EntryLockout.Run, OrderRunsTheorems.Inv, OnlyExitsSince, HasQuarantined, SentAsExit, OnlyExitsSent;
    BootLeavesNothingUnknown(before, id);
    QuarantineLocksEntries(d, events);
    QuietLock(d, EntryLockout.Run(d, events));
  }

  /** Sent, and if of the bucket, as a reducing order admitted since `d`. */
  ghost predicate SentAsExit(d: Desk, t: Desk, id: nat) {
    && id < |t.sys.rows|
    && (InBucket(t.sys.rows[id], t.bucket) ==> ExitAdmitted(t, |d.admitted|, t.sys.rows[id].key))
  }

  lemma QuietLock(d: Desk, t: Desk)
    requires d.sys.procs == map[] && OnlyExitsSent(d, t)
    ensures |d.sys.sent| <= |t.sys.sent|
    ensures forall i :: |d.sys.sent| <= i < |t.sys.sent| ==> SentAsExit(d, t, t.sys.sent[i])
  {
    hide ExitAdmitted, InBucket;
    forall i | |d.sys.sent| <= i < |t.sys.sent| ensures SentAsExit(d, t, t.sys.sent[i]) {
      assert ExitSent(d, t, t.sys.sent[i]);
    }
  }
}
