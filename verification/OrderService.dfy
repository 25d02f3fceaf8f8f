/** The order operations of server/app/services/order_service.py as they run on the repository, one at a time; the
    broker's answer is a parameter. */
module OrderService {
  import opened BrokerReports
  import opened MarketReconcile
  import opened OrderEdits
  import opened OrderLedger
  import opened OrderReconcile
  import opened OrderRuns
  import opened OrdersDb
  import opened OrderSolo
  import opened OrderStates
  import opened ReconcileRuns
  import opened Wrappers

  lemma DeliverSnoc(row: Row, fills: seq<Fill>, f: Fill)
    ensures Deliver(row, fills + [f]) == ApplyFill(Deliver(row, fills), f)
  {
    hide ApplyFill;
    assert (fills + [f])[..|fills|] == fills;
  }

  // ----- stopping everything -----

  function MarketsOf(live: bool): set<string> {
    if live then {KOREA, OVERSEAS} else {FUTURES}
  }

  predicate OpenAmong(row: Row, markets: set<string>) {
    Open(row) && row.market in markets
  }

  predicate SomeInDoubt(rows: seq<Row>, markets: set<string>) {
    exists i :: 0 <= i < |rows| && OpenAmong(rows[i], markets) && rows[i].status.InDoubt?
  }

  function Stopped(row: Row, markets: set<string>, a: Answer): Row {
    if OpenAmong(row, markets) && HasOrdNo(row) && a.Ack? then CanceledIf(row, a.ok) else row
  }

  /** How many cancellations the broker confirms. */
  function Confirmed(rows: seq<Row>, markets: set<string>, from: nat, answers: nat -> Answer): nat
    requires from <= |rows|
    decreases |rows| - from
  {
    if from == |rows| then 0
    else
      (if OpenAmong(rows[from], markets) && HasOrdNo(rows[from]) && answers(from).Ack? && answers(from).ok
       then 1 else 0)
      + Confirmed(rows, markets, from + 1, answers)
  }

  /** Each confirmed cancellation of an open order with a number counts once. */
  lemma {:induction false} ConfirmedAre(rows: seq<Row>, markets: set<string>, from: nat, answers: nat -> Answer)
    requires from <= |rows|
    ensures Confirmed(rows, markets, from, answers)
         == |ConfirmedSet(rows, markets, from, answers)|
    decreases |rows| - from
  {
    hide OpenAmong;
    if from < |rows| {
      ConfirmedAre(rows, markets, from + 1, answers);
      var a := answers(from);
      assert ConfirmedSet(rows, markets, from, answers) == ConfirmedSet(rows, markets, from + 1, answers)
             + if OpenAmong(rows[from], markets) && HasOrdNo(rows[from]) && a.Ack? && a.ok then {from} else {};
    }
  }

  ghost function ConfirmedSet(rows: seq<Row>, markets: set<string>, from: nat, answers: nat -> Answer): set<nat> {
    set i: nat | from <= i < |rows| && OpenAmong(rows[i], markets) && HasOrdNo(rows[i])
                 && answers(i).Ack? && answers(i).ok
  }

  /** If the broker confirms every cancellation, no order of the markets with an order number stays open. */
  lemma NothingStaysOpen(row: Row, markets: set<string>, a: Answer)
    requires a.Ack? && a.ok && (row.brokerId.Some? ==> !row.status.Approved?)
    ensures OpenAmong(Stopped(row, markets, a), markets) ==> !HasOrdNo(row)
    ensures !OpenAmong(row, markets) ==> Stopped(row, markets, a) == row
  {
  }

  lemma InsertShape(rows: seq<Row>, row: Row)
    ensures var (after, res) := Insert(rows, row);
            if res.Created? then res.id == |rows| && |after| == |rows| + 1 && after[|rows|] == row else after == rows
  {
  }

  lemma MoveShape(rows: seq<Row>, id: nat, to: OrderState, update: Update)
    requires id < |rows|
    ensures var (after, res) := Move(rows, id, to, update);
            |after| == |rows| && after[id].status == if res.Moved? then to else rows[id].status
  {
    hide Fits;
  }

  class OrderService {
    const repo: OrdersRepo
    /** The orders handed to the broker, in order. */
    var sent: seq<nat>

    constructor (repo: OrdersRepo)
      ensures this.repo == repo && sent == []
    {
      this.repo := repo;
      sent := [];
    }

    /** `accepted`: the key was new and the broker's acceptance was recorded. */
    method Place(req: Request, a: Answer) returns (accepted: bool)
      requires Stored(repo.rows)
      modifies this, repo
      ensures Stored(repo.rows)
      ensures (repo.rows, sent) == Solo(Proc.Place(req), a, old(repo.rows), old(sent))
      ensures accepted <==> |repo.rows| > |old(repo.rows)| && repo.rows[|old(repo.rows)|].status.Accepted?
    {
      hide Solo, Stored, Insert, Move;
      SoloUnfold(Proc.Place(req), a, repo.rows, sent);
      var res := repo.InsertOrder(Approve(req));
      InsertShape(old(repo.rows), Approve(req));
      if !res.Created? {
        return false;
      }
      var id := res.id;
      SoloUnfold(PlaceWait(id), a, repo.rows, sent);
      SoloUnfold(PlaceHeld(id), a, repo.rows, sent);
      MoveShape(repo.rows, id, Submitted, Keep);
      var moved := repo.ChangeState(id, Submitted, Keep);
      if !moved.Moved? {
        return false;
      }
      SoloUnfold(PlaceSend(id), a, repo.rows, sent);
      sent := sent + [id];
      SoloUnfold(PlaceSent(id), a, repo.rows, sent);
      var to, update := InDoubt, Keep;
      if a.Ack? {
        to := if a.ok then Accepted else Rejected;
        update := if a.ok then BrokerId(a.ordNo) else Keep;
      }
      SoloUnfold(PlaceRecord(id, to, update), a, repo.rows, sent);
      MoveShape(repo.rows, id, to, update);
      moved := repo.ChangeState(id, to, update);
      return moved.Moved? && to.Accepted?;
    }

    method Cancel(id: nat, a: Answer)
      requires Stored(repo.rows) && id < |repo.rows|
      modifies repo
      ensures Stored(repo.rows)
      ensures (repo.rows, sent) == Solo(Proc.Cancel(id), a, old(repo.rows), sent)
    {
      hide Solo, Stored, Fits, Insert;
      CancelAlone(id, a, repo.rows, sent);
      if !HasOrdNo(repo.rows[id]) || !a.Ack? {
        return;
      }
      var parent := repo.rows[id];
      var child := Child(parent, Relation.Cancel, a, parent.qty, parent.price);
      ChildIs(parent, Relation.Cancel, a, parent.qty, parent.price);
      AuditInserted(repo.rows, child);
      var res := repo.InsertOrder(child);
      if a.ok {
        var cur := repo.rows[id].status;
        MoveKeep(repo.rows, id, Canceled);
        if cur.Submitted? || cur.Accepted? || cur.PartiallyFilled? || cur.InDoubt? {
          var moved := repo.ChangeState(id, Canceled, Keep);
        }
      }
      assert repo.rows[id := repo.rows[id]] == repo.rows;
    }

    method Amend(id: nat, qty: real, price: real, a: Answer)
      requires Stored(repo.rows) && id < |repo.rows|
      modifies repo
      ensures Stored(repo.rows)
      ensures (repo.rows, sent) == Solo(Proc.Amend(id, qty, price), a, old(repo.rows), sent)
    {
      hide Solo, Stored, Fits, Insert;
      AmendAlone(id, qty, price, a, repo.rows, sent);
      if !HasOrdNo(repo.rows[id]) || !a.Ack? {
        return;
      }
      var child := Child(repo.rows[id], Modify, a, qty, Some(price));
      ChildIs(repo.rows[id], Modify, a, qty, Some(price));
      AuditInserted(repo.rows, child);
      var res := repo.InsertOrder(child);
      if a.ok {
        var updated := repo.UpdateOrderFields(id, a.ordNo, qty, price);
      }
    }

    /** Apply the executions among `matched` to one order; `applied` counts the new ones. */
    method ApplyAll(id: nat, matched: seq<BrokerRow>) returns (applied: nat)
      requires Stored(repo.rows) && id < |repo.rows|
      modifies repo
      ensures Stored(repo.rows)
      ensures var d := Deliver(old(repo.rows)[id], FillsOf(matched));
              repo.rows == old(repo.rows)[id := d] && |d.fills| == |old(repo.rows)[id].fills| + applied
    {
      hide Stored, ApplyFill, HasEvent, FillsOf, OpenOrderToFill, Deliver;
      ghost var was := repo.rows;
      ghost var row := was[id];
      applied := 0;
      var j := 0;
      NothingDelivered(was, id);
      while j < |matched|
        invariant 0 <= j <= |matched| && Stored(repo.rows)
        invariant repo.rows == was[id := Deliver(row, FillsOf(matched[..j]))]
        invariant |Deliver(row, FillsOf(matched[..j])).fills| == |row.fills| + applied
      {
        assert matched[..j + 1] == matched[..j] + [matched[j]];
        ghost var fills := FillsOf(matched[..j]);
        FillsOfSnoc(matched[..j], matched[j]);
        assert fills + [] == fills;
        var fill := OpenOrderToFill(matched[j]);
        if fill.Some? {
          DeliverSnoc(row, fills, fill.value);
          DeliverKeeps(row, fills);
          ApplyFillGrows(Deliver(row, fills), fill.value);
          var took := repo.StoreFill(id, fill.value);
          applied := if took then applied + 1 else applied;
        }
        j := j + 1;
      }
      assert matched[..j] == matched;
    }

    /** One order's part of a reconciliation, and the differences it resolves. */
    method ReconcileOrder(q: Query, id: nat) returns (resolved: nat)
      requires Stored(repo.rows) && id < |repo.rows| && InScope(q, repo.rows[id])
      modifies repo
      ensures Stored(repo.rows)
      ensures var after := ReconciledIn(q, old(repo.rows)[id]);
              repo.rows == old(repo.rows)[id := after] && resolved == Difference(q, old(repo.rows)[id], after)
    {
      hide Stored, Deliver, FillsOf, Matching, Move;
      var row := repo.rows[id];
      assert repo.rows[id := row] == repo.rows;
      if Terminal(row.status) || !row.relation.New? || !HasOrdNo(row) {
        return 0;
      }
      var matched := Matching(q.listed, row.brokerId.value);
      if matched == [] {
        if q.live {
          return 0;
        }
        var to := if q.closing then Expired else Canceled;
        MoveKeep(repo.rows, id, to);
        var moved := repo.ChangeState(id, to, Keep);
        return if moved.Moved? then 1 else 0;
      }
      DeliverKeeps(row, FillsOf(matched));
      var applied := ApplyAll(id, matched);
      if q.live {
        return applied;
      }
      if applied > 0 {
        return 1;
      }
      if q.closing && repo.rows[id].status.Accepted? {
        MoveKeep(repo.rows, id, Expired);
        var moved := repo.ChangeState(id, Expired, Keep);
        return 1;
      }
      return 0;
    }

    /** The loop over the orders a query knows, newest first. */
    method ReconcileKnown(q: Query) returns (resolved: nat, unresolved: nat)
      requires Stored(repo.rows)
      modifies repo
      ensures Stored(repo.rows)
      ensures repo.rows == Pass(q, old(repo.rows))
      ensures resolved == Differences(q, old(repo.rows), 0) && unresolved == Unnumbered(q, old(repo.rows), 0)
    {
      hide Stored, ReconciledIn, Difference;
      ghost var was := repo.rows;
      var id := |repo.rows|;
      resolved, unresolved := 0, 0;
      while id > 0
        invariant 0 <= id <= |repo.rows| == |was| && Stored(repo.rows)
        invariant forall k :: 0 <= k < id ==> repo.rows[k] == was[k]
        invariant forall k :: id <= k < |was| ==> repo.rows[k] == ReconciledIn(q, was[k])
        invariant resolved == Differences(q, was, id) && unresolved == Unnumbered(q, was, id)
      {
        id := id - 1;
        var row := repo.rows[id];
        if InScope(q, row) {
          if Open(row) && !HasOrdNo(row) {
            unresolved := unresolved + 1;
          }
          var one := ReconcileOrder(q, id);
          resolved := resolved + one;
        } else {
          ElsewhereUntouched(q, row);
        }
      }
    }

    /** Register an order only the broker knows. */
    method RegisterOrphan(account: Option<nat>, market: string, symbol: string, live: bool, listed: seq<BrokerRow>)
      returns (res: Inserted)
      requires Stored(repo.rows) && listed != []
      modifies repo
      ensures Stored(repo.rows)
      ensures (repo.rows, sent) == Solo(Orphan(account, market, symbol, live, listed), Failed, old(repo.rows), sent)
      ensures var row := OrphanRow(account, market, symbol, live, listed[0]);
              && res == Insert(old(repo.rows), row).1
              && repo.rows == if res.Created? then old(repo.rows) + [Deliver(row, FillsOf(listed))] else old(repo.rows)
    {
      hide Solo, Stored, Deliver, FillsOf, Fits;
      OrphanAlone(account, market, symbol, live, listed, Failed, repo.rows, sent);
      var row := OrphanRow(account, market, symbol, live, listed[0]);
      res := repo.InsertOrder(row);
      if !res.Created? {
        return;
      }
      var applied := ApplyAll(res.id, listed);
      ghost var d := Deliver(row, FillsOf(listed));
      assert (old(repo.rows) + [row])[res.id := d] == old(repo.rows) + [d];
    }

    /** The search for unknown orders over the listed numbers; an exception of a registration ends it. */
    method RegisterUnknown(q: Query, numbers: seq<string>) returns (raised: bool, found: nat)
      requires Stored(repo.rows) && AllListed(q, numbers) && DistinctNumbers(numbers)
      modifies repo
      ensures Stored(repo.rows)
      ensures (repo.rows, raised) == RegisterAll(q, old(repo.rows), numbers)
      ensures !raised ==> found == NewFound(q, old(repo.rows), numbers)
    {
      hide Stored, Deliver, FillsOf, Matching, Solo, Insert, Follows, Register, RegisterAll, NewFound, DistinctNumbers;
      ghost var was := repo.rows;
      found := 0;
      var j := 0;
      NothingRegistered(q, was, numbers);
      while j < |numbers|
        invariant 0 <= j <= |numbers| && Stored(repo.rows)
        invariant RegisterAll(q, was, numbers[..j]) == (repo.rows, false)
        invariant found == NewFound(q, was, numbers[..j])
      {
        OneNumberMore(q, was, numbers, j);
        if !Follows(q, repo.rows, numbers[j]) {
          found := found + 1;
          assert numbers[j] in numbers;
          RegisterWhat(q, repo.rows, numbers[j]);
          var group := Matching(q.listed, numbers[j]);
          var res := RegisterOrphan(q.account, q.market, q.symbol.GetOr(group[0].symbol), q.live, group);
          if res.Raised? {
            RaisedStays(q, was, numbers, j + 1);
            return true, found;
          }
        }
        j := j + 1;
      }
      assert numbers[..j] == numbers;
      return false, found;
    }

    /** One query: the known orders, then the unknown numbers. */
    method RunQuery(q: Query) returns (raised: bool, counts: Counts)
      requires Stored(repo.rows)
      modifies repo
      ensures Stored(repo.rows)
      ensures (repo.rows, raised) == ReconcileQuery(q, old(repo.rows))
      ensures !raised ==> counts == QueryCounts(q, old(repo.rows))
    {
      hide Stored, Asked, Pass, Unknown, RegisterAll, AttemptsOf, NewFound, Differences, Unnumbered, Newcomers;
      ghost var was := repo.rows;
      if !Asked(q, repo.rows) || !q.answered {
        return Asked(q, repo.rows) && !q.live, Counts(0, 0, 0);
      }
      var numbers := Unknown(q, repo.rows);
      UnknownAre(q, was);
      var differences, unresolved := ReconcileKnown(q);
      var size := |repo.rows|;
      var found;
      raised, found := RegisterUnknown(q, numbers);
      CountsAre(q, was);
      if raised {
        return true, Counts(0, 0, 0);
      }
      assert |repo.rows| == size + |Attempts(q, was)|;
      return false, Counts(differences + found, differences + (|repo.rows| - size), unresolved);
    }

    /** A whole reconciliation; an exception of a query ends it. */
    method Reconcile(feed: Feed) returns (raised: bool, counts: Counts)
      requires Stored(repo.rows)
      modifies repo
      ensures Stored(repo.rows)
      ensures (repo.rows, raised) == ReconcileRun(feed, old(repo.rows))
      ensures !raised ==> counts == RunCounts(Queries(feed, old(repo.rows)), old(repo.rows))
    {
      hide Stored, Queries, ReconcileQuery, QueryCounts;
      ghost var was := repo.rows;
      var qs := Queries(feed, repo.rows);
      counts := Counts(0, 0, 0);
      var j := 0;
      assert qs[0..] == qs;
      while j < |qs|
        invariant 0 <= j <= |qs| && Stored(repo.rows)
        invariant RunAll(qs[j..], repo.rows) == RunAll(qs, was)
        invariant RunCounts(qs, was) == Plus(counts, RunCounts(qs[j..], repo.rows))
      {
        assert qs[j..][1..] == qs[j + 1..] && qs[j..][0] == qs[j];
        var one;
        raised, one := RunQuery(qs[j]);
        if raised {
          return;
        }
        counts := Plus(counts, one);
        j := j + 1;
      }
      return false, counts;
    }

    method LooksInDoubt(markets: set<string>) returns (found: bool)
      ensures found == SomeInDoubt(repo.rows, markets)
    {
      var i := 0;
      while i < |repo.rows|
        invariant 0 <= i <= |repo.rows|
        invariant forall k :: 0 <= k < i ==> !(OpenAmong(repo.rows[k], markets) && repo.rows[k].status.InDoubt?)
      {
        if OpenAmong(repo.rows[i], markets) && repo.rows[i].status.InDoubt? {
          return true;
        }
        i := i + 1;
      }
      return false;
    }

    /** Cancel every open order of the markets, newest first, and count the confirmations. */
    method CancelOpen(markets: set<string>, answers: nat -> Answer) returns (canceled: nat)
      requires Stored(repo.rows)
      modifies repo
      ensures Stored(repo.rows) && |old(repo.rows)| <= |repo.rows|
      ensures canceled == Confirmed(old(repo.rows), markets, 0, answers)
      ensures forall id :: 0 <= id < |old(repo.rows)| ==>
                repo.rows[id] == Stopped(old(repo.rows)[id], markets, answers(id))
      ensures forall id :: |old(repo.rows)| <= id < |repo.rows| ==> repo.rows[id].relation.Cancel?
    {
      hide Stored, Solo, CanceledIf, Insert;
      ghost var start := repo.rows;
      var id := |repo.rows|;
      canceled := 0;
      while id > 0
        invariant 0 <= id <= |start| <= |repo.rows| && Stored(repo.rows)
        invariant forall k :: 0 <= k < id ==> repo.rows[k] == start[k]
        invariant forall k :: id <= k < |start| ==> repo.rows[k] == Stopped(start[k], markets, answers(k))
        invariant forall k :: |start| <= k < |repo.rows| ==> repo.rows[k].relation.Cancel?
        invariant canceled == Confirmed(start, markets, id, answers)
      {
        id := id - 1;
        var row := repo.rows[id];
        if OpenAmong(row, markets) && HasOrdNo(row) {
          var ok := CancelOne(id, answers(id));
          canceled := if ok then canceled + 1 else canceled;
        }
      }
    }

    /** One cancellation of the sweep. */
    method CancelOne(id: nat, a: Answer) returns (ok: bool)
      requires Stored(repo.rows) && id < |repo.rows| && HasOrdNo(repo.rows[id])
      modifies repo
      ensures Stored(repo.rows) && |old(repo.rows)| <= |repo.rows| && (ok <==> a.Ack? && a.ok)
      ensures repo.rows[id] == if a.Ack? then CanceledIf(old(repo.rows)[id], a.ok) else old(repo.rows)[id]
      ensures forall k :: 0 <= k < |old(repo.rows)| && k != id ==> repo.rows[k] == old(repo.rows)[k]
      ensures forall k :: |old(repo.rows)| <= k < |repo.rows| ==> repo.rows[k].relation.Cancel?
    {
      hide Stored, Solo, CanceledIf, Insert;
      CancelAlone(id, a, repo.rows, sent);
      Cancel(id, a);
      return a.Ack? && a.ok;
    }

    /** The sweep of the kill switch over the markets of a bucket. Orders in doubt call for a reconciliation of the
        bucket beforehand, which may raise. */
    method CancelAllOpen(feed: Feed, answers: nat -> Answer) returns (raised: bool, canceled: nat)
      requires Stored(repo.rows)
      modifies repo
      ensures Stored(repo.rows)
      ensures var markets := MarketsOf(feed.live);
              var (start, failed) := if SomeInDoubt(old(repo.rows), markets)
                                     then ReconcileRun(feed.(closing := false), old(repo.rows))
                                     else (old(repo.rows), false);
              && raised == failed && (raised ==> repo.rows == start && canceled == 0)
              && (!raised ==>
                    && |start| <= |repo.rows|
                    && canceled == Confirmed(start, markets, 0, answers)
                    && (forall id :: 0 <= id < |start| ==> repo.rows[id] == Stopped(start[id], markets, answers(id)))
                    && (forall id :: |start| <= id < |repo.rows| ==> repo.rows[id].relation.Cancel?))
    {
      hide Stored, SomeInDoubt, ReconcileRun, Stopped, Confirmed, MarketsOf;
      raised, canceled := false, 0;
      var markets := MarketsOf(feed.live);
      var doubt := LooksInDoubt(markets);
      if doubt {
        var counts;
        raised, counts := Reconcile(feed.(closing := false));
        if raised {
          return;
        }
      }
      canceled := CancelOpen(markets, answers);
    }
  }

  lemma NothingDelivered(rows: seq<Row>, id: nat)
    requires id < |rows|
    ensures rows[id := Deliver(rows[id], FillsOf([]))] == rows && Deliver(rows[id], FillsOf([])) == rows[id]
  {
  }

  lemma ElsewhereUntouched(q: Query, row: Row)
    requires !InScope(q, row)
    ensures ReconciledIn(q, row) == row && Difference(q, row, row) == 0 && !OpenIn(q, row)
  {
  }

  lemma RegisterWhat(q: Query, rows: seq<Row>, ordNo: string)
    requires Matching(q.listed, ordNo) != []
    ensures var group := Matching(q.listed, ordNo);
            var row := OrphanRow(q.account, q.market, q.symbol.GetOr(group[0].symbol), q.live, group[0]);
            var res := Insert(rows, row).1;
            Register(q, rows, ordNo)
              == (if res.Created? then rows + [Deliver(row, FillsOf(group))] else rows, res.Raised?)
  {
    hide Deliver, FillsOf, Matching, Insert;
  }

  /** An exception ends the search. */
  lemma {:induction false} RaisedStays(q: Query, rows: seq<Row>, ns: seq<string>, n: nat)
    requires n <= |ns| && RegisterAll(q, rows, ns[..n]).1
    ensures RegisterAll(q, rows, ns) == RegisterAll(q, rows, ns[..n])
    decreases |ns|
  {
    hide Register, Follows;
    if n == |ns| {
      assert ns[..n] == ns;
    } else {
      assert ns[..|ns| - 1][..n] == ns[..n];
      RaisedStays(q, rows, ns[..|ns| - 1], n);
    }
  }

  /** What the live search finds out about the number at `j` is what counts. */
  lemma FollowsNow(q: Query, rows: seq<Row>, ns: seq<string>, j: nat)
    requires j < |ns| && DistinctNumbers(ns) && AllListed(q, ns) && !RegisterAll(q, rows, ns[..j]).1
    ensures Follows(q, RegisterAll(q, rows, ns[..j]).0, ns[j])
       <==> Succeeds(q, rows, AttemptsOf(q, rows, ns[..j]), ns[j])
  {
    hide Follows, RegisterAll, Newcomers, KeyFor, KeyKnown, Taken, Matching, Origin;
    AllRegister(q, rows, ns[..j]);
    AttemptsListed(q, rows, ns[..j]);
    var before := AttemptsOf(q, rows, ns[..j]);
    NewcomersAdd(q, rows, before);
    FollowsIs(q, rows + Newcomers(q, before), ns[j]);
  }

  lemma OneNumberMore(q: Query, rows: seq<Row>, ns: seq<string>, j: nat)
    requires j < |ns| && DistinctNumbers(ns) && AllListed(q, ns) && !RegisterAll(q, rows, ns[..j]).1
    ensures var mid := RegisterAll(q, rows, ns[..j]).0;
            && RegisterAll(q, rows, ns[..j + 1])
               == (if Follows(q, mid, ns[j]) then (mid, false) else Register(q, mid, ns[j]))
            && NewFound(q, rows, ns[..j + 1]) == NewFound(q, rows, ns[..j]) + if Follows(q, mid, ns[j]) then 0 else 1
  {
    hide Follows, Register, Succeeds, AttemptsOf, DistinctNumbers, AllListed;
    assert ns[..j + 1][..j] == ns[..j];
    FollowsNow(q, rows, ns, j);
  }

  lemma NothingRegistered(q: Query, rows: seq<Row>, ns: seq<string>)
    ensures RegisterAll(q, rows, ns[..0]) == (rows, false) && NewFound(q, rows, ns[..0]) == 0
  {
  }

  lemma {:induction false} FoundSame(q: Query, rows: seq<Row>, ns: seq<string>)
    ensures NewFound(q, Pass(q, rows), ns) == NewFound(q, rows, ns)
  {
    hide Pass, AttemptsOf, Taken, Origin;
    SameIds(q, rows);
    if ns != [] {
      FoundSame(q, rows, ns[..|ns| - 1]);
      AttemptsSame(q, rows, ns[..|ns| - 1]);
    }
  }

  lemma CountsAre(q: Query, rows: seq<Row>)
    ensures NewFound(q, Pass(q, rows), Unknown(q, rows)) == NewFound(q, rows, Unknown(q, rows))
    ensures Heard(q, rows) && !ReconcileQuery(q, rows).1
            ==> |ReconcileQuery(q, rows).0| == |Pass(q, rows)| + |Attempts(q, rows)|
  {
    hide Pass, Unknown, NewFound, ReconcileQuery, AttemptsOf, Raises;
    QueryIs(q, rows);
    FoundSame(q, rows, Unknown(q, rows));
  }
}
