/** One order coroutine running without interference, and what it then leaves behind. */
module OrderSolo {
  import opened Wrappers
  import opened OrderStates
  import opened OrderLedger
  import opened OrdersDb
  import opened BrokerReports
  import opened OrderRuns

  function Stage(p: Proc): nat {
    match p
    case Place(_) => 6
    case PlaceWait(_) => 5
    case PlaceHeld(_) => 4
    case PlaceSend(_) => 3
    case PlaceSent(_) => 2
    case PlaceRecord(_, _, _) => 1
    case Cancel(_) => 6
    case CancelSent(_, _) => 5
    case CancelChild(_, _, _) => 4
    case CancelWait(_) => 3
    case CancelHeld(_) => 2
    case CancelWrite(_) => 1
    case Amend(_, _, _) => 4
    case AmendSent(_, _, _, _) => 3
    case AmendChild(_, _, _, _) => 2
    case AmendWrite(_, _, _, _) => 1
    case Reconcile(_, _, _) => 6
    case Fetched(_, _, _, _) => 5
    case GoneWait(_, _) => 3
    case GoneHeld(_, _) => 2
    case GoneWrite(_, _) => 1
    case FillsWait(_, _, _) => 3
    case FillsHeld(_, _, _, _) => 2
    case ExpireWrite(_) => 1
    case Orphan(_, _, _, _, _) => 4
    case Stream(_, _) => 4
  }

  function FillsLeft(p: Proc): nat {
    if p.FillsHeld? then |p.fills| else 0
  }

  ghost predicate Drops(p: Proc, next: Option<Proc>) {
    next.Some? ==> Stage(next.value) < Stage(p) || (Stage(next.value) == Stage(p) && FillsLeft(next.value) < FillsLeft(p))
  }

  lemma PlaceDrops(p: Proc, a: Answer, rows: seq<Row>, sent: seq<nat>)
    ensures Drops(p, PlaceStep(p, a, rows, sent).next)
  {
    hide Insert, Move;
  }

  lemma CancelDrops(p: Proc, a: Answer, rows: seq<Row>, sent: seq<nat>)
    ensures Drops(p, CancelStep(p, a, rows, sent).next)
  {
    hide Insert, Move, Cancelable, Child;
  }

  lemma AmendDrops(p: Proc, a: Answer, rows: seq<Row>, sent: seq<nat>)
    ensures Drops(p, AmendStep(p, a, rows, sent).next)
  {
    hide Insert, OrdersDb.Amend, Child;
  }

  lemma ReconcileDrops(p: Proc, a: Answer, rows: seq<Row>, sent: seq<nat>)
    ensures Drops(p, ReconcileStep(p, a, rows, sent).next)
  {
    hide Move, FillsOf, Matching;
  }

  lemma FillsDrops(p: Proc, rows: seq<Row>, sent: seq<nat>)
    ensures Drops(p, FillsStep(p, rows, sent).next)
  {
    hide Insert, Book, FillsOf, ByBroker, OrphanRow, Tc3ToFill;
  }

  lemma StageDrops(p: Proc, a: Answer, rows: seq<Row>, sent: seq<nat>)
    ensures Drops(p, Step(p, a, rows, sent).next)
  {
    hide Drops, PlaceStep, CancelStep, AmendStep, ReconcileStep, FillsStep;
    PlaceDrops(p, a, rows, sent);
    CancelDrops(p, a, rows, sent);
    AmendDrops(p, a, rows, sent);
    ReconcileDrops(p, a, rows, sent);
    FillsDrops(p, rows, sent);
  }

  /** The table and the sent orders once `p` has run to its end, the outside answering `a`. */
  function Solo(p: Proc, a: Answer, rows: seq<Row>, sent: seq<nat>): (seq<Row>, seq<nat>)
    decreases Stage(p), FillsLeft(p)
  {
    var eff := Step(p, a, rows, sent);
    match eff.next
    case None => (eff.rows, eff.sent)
    case Some(q) =>
      StageDrops(p, a, rows, sent);
      Solo(q, a, eff.rows, eff.sent)
  }

  // ----- running alone is one of the runs -----

  /** The system runs one coroutine, which holds no lock but the one it is inside. */
  ghost predicate Only(s: Sys, pid: nat, p: Proc) {
    && s.procs == map[pid := p]
    && s.locks == if Holds(p).Some? then map[Holds(p).value := pid] else map[]
  }

  function Repeat(e: Event, n: nat): seq<Event> {
    if n == 0 then [] else [e] + Repeat(e, n - 1)
  }

  lemma {:induction false} RunFront(s: Sys, e: Event, rest: seq<Event>)
    ensures Run(s, [e] + rest) == Run(Next(s, e), rest)
    decreases |rest|
  {
    hide Next;
    var all := [e] + rest;
    if rest == [] {
      assert all[..0] == [] && Run(s, all[..0]) == s;
    } else {
      RunFront(s, e, rest[..|rest| - 1]);
      assert all[..|all| - 1] == [e] + rest[..|rest| - 1];
    }
  }

  lemma GoAlone(s: Sys, pid: nat, p: Proc, a: Answer)
    requires Only(s, pid, p)
    ensures var eff, t := Step(p, a, s.rows, s.sent), Next(s, Go(pid, a));
            && t.rows == eff.rows && t.sent == eff.sent
            && if eff.next.Some? then Only(t, pid, eff.next.value) else t.procs == map[] && t.locks == map[]
  {
    hide Step, Holds;
    var eff := Step(p, a, s.rows, s.sent);
    KeepsOneLock(p, a, s.rows, s.sent);
  }

  lemma KeepsOneLock(p: Proc, a: Answer, rows: seq<Row>, sent: seq<nat>)
    ensures var has := HoldsNext(Step(p, a, rows, sent).next);
            Holds(p).Some? ==> has.None? || has == Holds(p)
  {
    hide Insert, Move, Book, OrdersDb.Amend, FillsOf, Matching, ByBroker;
  }

  /** What a coroutine does alone is what some run of the whole system does. */
  lemma {:induction false} SoloIsARun(s: Sys, pid: nat, p: Proc, a: Answer) returns (n: nat)
    requires Only(s, pid, p)
    ensures var t := Run(s, Repeat(Go(pid, a), n));
            (t.rows, t.sent) == Solo(p, a, s.rows, s.sent) && t.procs == map[] && t.locks == map[]
    decreases Stage(p), FillsLeft(p)
  {
    hide Step, Next, Only, Solo;
    SoloUnfold(p, a, s.rows, s.sent);
    GoAlone(s, pid, p, a);
    StageDrops(p, a, s.rows, s.sent);
    var eff, t := Step(p, a, s.rows, s.sent), Next(s, Go(pid, a));
    n := 1;
    if eff.next.Some? {
      var m := SoloIsARun(t, pid, eff.next.value, a);
      n := m + 1;
    }
    RunFront(s, Go(pid, a), Repeat(Go(pid, a), n - 1));
  }

  // ----- placing -----

  /** The log and order number a placed order ends with, by the broker's answer. */
  function Answered(row: Row, a: Answer): Row {
    var sent := Entry(Approved, Submitted);
    match a
    case Ack(ok, ordNo, _) =>
      if ok then row.(status := Accepted, brokerId := ordNo, log := [sent, Entry(Submitted, Accepted)])
      else row.(status := Rejected, log := [sent, Entry(Submitted, Rejected)])
    case _ => row.(status := InDoubt, log := [sent, Entry(Submitted, InDoubt)])
  }

  /** A request under a new key is stored, sent exactly once, and ends accepted with its order number, rejected, or
      in doubt; when the order number is already taken in the account the row stays submitted. A request under a
      known key changes nothing and sends nothing. */
  lemma PlaceAlone(req: Request, a: Answer, rows: seq<Row>, sent: seq<nat>)
    ensures var (after, sent') := Solo(Place(req), a, rows, sent);
            var request := Row(req.key, req.account, req.market, req.symbol, New, req.qty, req.price, Approved, None,
                               0.0, None, None, Approved, [], []);
            var done := Answered(request, a);
            if (exists i :: 0 <= i < |rows| && rows[i].key == req.key) then after == rows && sent' == sent
            else
              && sent' == sent + [|rows|]
              && after == rows + [if Fits(rows, |rows|, done) then done
                                  else request.(status := Submitted, log := [Entry(Approved, Submitted)])]
  {
    hide Solo, Fits, CancelStep, AmendStep, ReconcileStep, FillsStep;
    SoloUnfold(Place(req), a, rows, sent);
    NothingToClash(rows, Approve(req));
    if WithKey(rows, req.key).None? {
      var id := |rows|;
      var stored := rows + [Approve(req)];
      SoloUnfold(PlaceWait(id), a, stored, sent);
      SoloUnfold(PlaceHeld(id), a, stored, sent);
      var submitted := Approve(req).(status := Submitted, log := [Entry(Approved, Submitted)]);
      MoveLast(rows, Approve(req), Submitted, Keep);
      NothingToClash(rows, submitted);
      assert Approve(req).log + [Entry(Approved, Submitted)] == [Entry(Approved, Submitted)];
      var out := rows + [submitted];
      SoloUnfold(PlaceSend(id), a, out, sent);
      SoloUnfold(PlaceSent(id), a, out, sent + [id]);
      Recorded(req, a, rows, sent + [id]);
    }
  }

  lemma Recorded(req: Request, a: Answer, rows: seq<Row>, sent: seq<nat>)
    ensures var submitted := Approve(req).(status := Submitted, log := [Entry(Approved, Submitted)]);
            var done := Answered(Approve(req), a);
            var p := PlaceSent(|rows|);
            (Solo(Step(p, a, rows + [submitted], sent).next.value, a, rows + [submitted], sent)
              == (rows + [if Fits(rows, |rows|, done) then done else submitted], sent))
  {
    hide Solo, Fits, CancelStep, AmendStep, ReconcileStep, FillsStep;
    var submitted := Approve(req).(status := Submitted, log := [Entry(Approved, Submitted)]);
    var q := Step(PlaceSent(|rows|), a, rows + [submitted], sent).next.value;
    SoloUnfold(q, a, rows + [submitted], sent);
    MoveLast(rows, submitted, q.to, q.update);
    NothingToClash(rows, Answered(Approve(req), a));
    assert submitted.log + [Entry(Submitted, q.to)] == [Entry(Approved, Submitted), Entry(Submitted, q.to)];
  }

  lemma NothingToClash(rows: seq<Row>, row: Row)
    ensures row.brokerId.None? ==> Fits(rows, |rows|, row)
  {
  }

  lemma MoveLast(rows: seq<Row>, row: Row, to: OrderState, update: Update)
    requires CanTransition(row.status, to)
    ensures var moved := WithUpdate(row.(status := to, log := row.log + [Entry(row.status, to)]), update);
            (Move(rows + [row], |rows|, to, update)
              == if Fits(rows, |rows|, moved) then (rows + [moved], Moved(row.status)) else (rows + [row], Conflict))
  {
    var moved := WithUpdate(row.(status := to, log := row.log + [Entry(row.status, to)]), update);
    assert Fits(rows + [row], |rows|, moved) <==> Fits(rows, |rows|, moved) by {
      if Fits(rows + [row], |rows|, moved) {
        forall j | 0 <= j < |rows| ensures !Clash(moved, rows[j]) { assert rows[j] == (rows + [row])[j]; }
      }
    }
    assert (rows + [row])[|rows| := moved] == rows + [moved];
  }

  lemma SoloUnfold(p: Proc, a: Answer, rows: seq<Row>, sent: seq<nat>)
    ensures var eff := Step(p, a, rows, sent);
            (Solo(p, a, rows, sent)
              == if eff.next.Some? then Solo(eff.next.value, a, eff.rows, eff.sent) else (eff.rows, eff.sent))
  {
    hide Step;
  }
}
