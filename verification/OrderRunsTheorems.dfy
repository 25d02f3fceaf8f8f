/** Safety of whole runs: any interleaving of placements, cancellations, amendments, reconciliations and streamed
    fills, with coroutines cancelled and servers restarted anywhere. */
module OrderRunsTheorems {
  import opened Wrappers
  import opened OrderStates
  import opened OrderLedger
  import opened OrdersDb
  import opened BrokerReports
  import opened OrderRuns
  import opened OrderRunsSafety

  ghost predicate ProcsOk(s: Sys) {
    forall pid <- s.procs :: ProcOk(s.procs[pid], s.rows, s.sent)
  }

  /** Every order is being placed by at most one coroutine. */
  ghost predicate OneOwner(procs: map<nat, Proc>) {
    forall a <- procs, b <- procs :: Owner(procs[a]).Some? && Owner(procs[a]) == Owner(procs[b]) ==> a == b
  }

  /** The lock table says exactly who is inside which lock. */
  ghost predicate LocksOk(procs: map<nat, Proc>, locks: map<nat, nat>) {
    && (forall pid <- procs :: Holds(procs[pid]).Some?
          ==> Holds(procs[pid]).value in locks && locks[Holds(procs[pid]).value] == pid)
    && (forall id <- locks :: locks[id] in procs && Holds(procs[locks[id]]) == Some(id))
  }

  ghost predicate Inv(s: Sys) {
    && Stored(s.rows) && RowsOk(s.rows) && SentOk(s.rows, s.sent)
    && ProcsOk(s) && OneOwner(s.procs) && LocksOk(s.procs, s.locks)
    && !s.refused
  }

  /** A server that just came up on a table an earlier one left, before anything was sent. */
  ghost predicate Boot(s: Sys) {
    && Stored(s.rows) && RowsOk(s.rows)
    && s.locks == map[] && s.procs == map[] && s.sent == [] && !s.refused
  }

  /** A coroutine that shares neither a placement nor a lock with `p` still knows what it knew. */
  lemma OtherKeeps(p: Proc, q: Proc, rows: seq<Row>, sent: seq<nat>, after: seq<Row>, sent': seq<nat>)
    requires ProcOk(p, rows, sent) && ProcOk(q, rows, sent) && Frame(p, rows, after)
    requires Owner(q).Some? ==> Owner(q) != Owner(p)
    requires Holds(q).Some? ==> Holds(q) != Holds(p)
    requires sent' == sent || (p.PlaceSend? && sent' == sent + [p.id])
    ensures ProcOk(q, after, sent')
  {
    if About(q).Some? {
      var o := About(q).value;
      assert RowFrame(p, o, rows[o], after[o]);
    }
  }

  lemma RelockOk(procs: map<nat, Proc>, locks: map<nat, nat>, pid: nat, next: Option<Proc>)
    requires LocksOk(procs, locks) && pid in procs
    requires HoldsNext(next).Some? && HoldsNext(next) != Holds(procs[pid]) ==> HoldsNext(next).value !in locks
    ensures LocksOk(if next.Some? then procs[pid := next.value] else procs - {pid},
                    Relock(locks, pid, Holds(procs[pid]), HoldsNext(next)))
  {
    hide Holds;
  }

  lemma OwnersStay(procs: map<nat, Proc>, rows: seq<Row>, sent: seq<nat>, pid: nat, next: Option<Proc>)
    requires OneOwner(procs) && pid in procs && OwnerOk(procs[pid], rows, next)
    requires forall q <- procs :: ProcOk(procs[q], rows, sent)
    ensures OneOwner(if next.Some? then procs[pid := next.value] else procs - {pid})
  {
    forall q | q in procs ensures Owner(procs[q]).Some? ==> Owner(procs[q]).value < |rows| {
      assert ProcOk(procs[q], rows, sent);
    }
    hide Owner, ProcOk;
  }

  lemma WriteStored(rows: seq<Row>, after: seq<Row>)
    requires Stored(rows) && OneWrite(rows, after)
    ensures Stored(after)
  {
    hide Stored, Insert, Move, Book, OrdersDb.Amend;
    if row :| after == Insert(rows, row).0 {
      InsertKeeps(rows, row);
    } else if id, to, update :| after == Move(rows, id, to, update).0 {
      MoveKeeps(rows, id, to, update);
    } else if id, f :| after == Book(rows, id, f).0 {
      FillKeeps(rows, id, f);
    } else if id, ordNo, qty, price :| after == OrdersDb.Amend(rows, id, ordNo, qty, price).0 {
      AmendKeeps(rows, id, ordNo, qty, price);
    }
  }

  lemma GoKeeps(s: Sys, pid: nat, a: Answer)
    requires Inv(s) && pid in s.procs
    ensures Inv(Next(s, Go(pid, a)))
  {
    hide Step, Stored, RowsOk, SentOk, ProcOk, Frame, OneOwner, LocksOk, Relock, HoldsNext, OneWrite;
    var p := s.procs[pid];
    var eff := Step(p, a, s.rows, s.sent);
    StepOk(p, a, s.rows, s.sent);
    StepWrites(p, a, s.rows, s.sent);
    WriteStored(s.rows, eff.rows);
    if !Blocked(s, p, eff.next) {
      RelockOk(s.procs, s.locks, pid, eff.next);
      OwnersStay(s.procs, s.rows, s.sent, pid, eff.next);
      forall q | q in s.procs && q != pid ensures ProcOk(s.procs[q], eff.rows, eff.sent) {
        Separate(s, pid, q);
        OtherKeeps(p, s.procs[q], s.rows, s.sent, eff.rows, eff.sent);
      }
    }
  }

  lemma Separate(s: Sys, pid: nat, q: nat)
    requires OneOwner(s.procs) && LocksOk(s.procs, s.locks) && pid in s.procs && q in s.procs && q != pid
    ensures Owner(s.procs[q]).Some? ==> Owner(s.procs[q]) != Owner(s.procs[pid])
    ensures Holds(s.procs[q]).Some? ==> Holds(s.procs[q]) != Holds(s.procs[pid])
  {
    hide Owner, Holds;
  }

  lemma AbortKeeps(s: Sys, pid: nat)
    requires Inv(s) && pid in s.procs
    ensures Inv(Next(s, Abort(pid)))
  {
    hide Stored, RowsOk, SentOk, ProcOk, OneOwner, LocksOk, Relock;
    RelockOk(s.procs, s.locks, pid, None);
    OwnersStay(s.procs, s.rows, s.sent, pid, None);
  }

  lemma FreshOk(p: Proc, rows: seq<Row>, sent: seq<nat>)
    requires Fresh(p)
    ensures ProcOk(p, rows, sent) && Owner(p).None? && Holds(p).None?
  {
  }

  lemma SpawnKeeps(s: Sys, pid: nat, p: Proc)
    requires Inv(s)
    ensures Inv(Next(s, Spawn(pid, p)))
  {
    hide Stored, RowsOk, SentOk, ProcOk, Owner, Holds;
    if Fresh(p) {
      FreshOk(p, s.rows, s.sent);
    }
  }

  lemma QuarantineKeeps(s: Sys, id: nat)
    requires Inv(s)
    ensures Inv(Next(s, Quarantine(id)))
  {
    hide RowOk, Stored, Fits;
    if s.procs == map[] && id < |s.rows| && Unresolved(s.rows[id]) {
      UnplacedHasNoNumber(s.rows, id);
      WriteOk(s.rows, id, Quarantined, Keep);
      MoveKeeps(s.rows, id, Quarantined, Keep);
    }
  }

  lemma NextKeeps(s: Sys, e: Event)
    requires Inv(s)
    ensures Inv(Next(s, e))
  {
    match e
    case Spawn(pid, p) => SpawnKeeps(s, pid, p);
    case Go(pid, a) => if pid in s.procs { GoKeeps(s, pid, a); }
    case Abort(pid) => if pid in s.procs { AbortKeeps(s, pid); }
    case Crash =>
    case Quarantine(id) => QuarantineKeeps(s, id);
  }

  lemma {:induction false} RunKeeps(s: Sys, events: seq<Event>)
    requires Inv(s)
    ensures Inv(Run(s, events))
  {
    hide Inv, Next;
    if events != [] {
      RunKeeps(s, events[..|events| - 1]);
      NextKeeps(Run(s, events[..|events| - 1]), events[|events| - 1]);
    }
  }
}
