/** What a second reconciliation run over the same listing still does. */
module SecondRun {
  import opened BrokerReports
  import opened MarketReconcile
  import opened OrderLedger
  import opened OrderReconcile
  import opened OrderRuns
  import opened OrdersDb
  import opened OrderStates
  import opened ReconcileRuns
  import opened Wrappers

  // ----- what a run leaves -----

  /** The orders `q` knows are reconciled, and every number it looked into is under its key or succeeds an order. */
  ghost predicate Handled(q: Query, rows: seq<Row>, after: seq<Row>) {
    && |rows| <= |after|
    && (forall i :: 0 <= i < |rows| && InScope(q, rows[i])
          ==> after[i] == if Heard(q, rows) then ReconciledIn(q, rows[i]) else rows[i])
    && (Heard(q, rows) ==> forall n <- Unknown(q, rows) :: Settled(q, after, n))
  }

  ghost predicate Settled(q: Query, rows: seq<Row>, n: string) {
    KeyKnown(rows, KeyFor(q, n)) || Succeeds(q, rows, [], n)
  }

  ghost predicate AddedBy(q: Query, rows: seq<Row>, row: Row) {
    Heard(q, rows) && exists n :: n in Unknown(q, rows) && row == Newcomer(q, n)
  }

  ghost predicate AddedBySome(qs: seq<Query>, rows: seq<Row>, row: Row) {
    exists q :: q in qs && AddedBy(q, rows, row)
  }

  ghost predicate Leaves(qs: seq<Query>, rows: seq<Row>, after: seq<Row>) {
    && |rows| <= |after|
    && (forall i :: 0 <= i < |rows| ==> SameOrder(rows[i], after[i]))
    && (forall q <- qs :: Handled(q, rows, after))
    && (forall i :: |rows| <= i < |after| ==> AddedBySome(qs, rows, after[i]))
  }

  lemma QueryHandles(q: Query, rows: seq<Row>)
    requires !Raises(q, rows)
    ensures var after := ReconcileQuery(q, rows).0;
            && Handled(q, rows, after)
            && (forall i :: 0 <= i < |rows| ==> SameOrder(rows[i], after[i]))
            && (forall i :: |rows| <= i < |after| ==> AddedBy(q, rows, after[i]) && InScope(q, after[i]))
  {
    hide ReconcileQuery, Raises, ReconciledIn, Newcomer, Unknown, AttemptsOf, KeyFor, KeyKnown, Succeeds, Heard;
    QueryIs(q, rows);
    SameIds(q, rows);
    if Heard(q, rows) {
      var ns := Attempts(q, rows);
      AttemptedListed(q, rows);
      AttemptsAre(q, rows, Unknown(q, rows));
      forall i | 0 <= i < |ns| ensures InScope(q, Newcomers(q, ns)[i]) && AddedBy(q, rows, Newcomers(q, ns)[i]) {
        assert ns[i] in ns;
        NewcomerIs(q, ns[i]);
      }
      forall n | n in Unknown(q, rows) ensures Settled(q, Pass(q, rows) + Newcomers(q, ns), n) {
        SettledNow(q, rows, ns, n);
      }
    }
  }

  lemma SettledNow(q: Query, rows: seq<Row>, ns: seq<string>, n: string)
    requires AllListed(q, ns) && (n in ns || KeyKnown(rows, KeyFor(q, n)) || Succeeds(q, rows, ns, n))
    ensures Settled(q, Pass(q, rows) + Newcomers(q, ns), n)
  {
    hide Pass, Newcomers, KeyFor, KeyKnown, Taken, Origin;
    PassAdds(q, rows, ns);
  }

  /** Keys and numbers stay. */
  lemma IdsStay(rows: seq<Row>, after: seq<Row>)
    requires |rows| <= |after| && forall i :: 0 <= i < |rows| ==> SameOrder(rows[i], after[i])
    ensures forall key :: KeyKnown(rows, key) ==> KeyKnown(after, key)
    ensures forall account, n :: Taken(rows, account, n) ==> Taken(after, account, n)
    ensures forall q, n :: Settled(q, rows, n) ==> Settled(q, after, n)
  {
    hide KeyFor, Origin;
    forall key | KeyKnown(rows, key) ensures KeyKnown(after, key) {
      var i :| 0 <= i < |rows| && rows[i].key == key;
      assert after[i].key == key;
    }
    forall account, n | Taken(rows, account, n) ensures Taken(after, account, n) {
      var i :| 0 <= i < |rows| && rows[i].account == account && rows[i].brokerId == Some(n);
      assert after[i].account == account && after[i].brokerId == Some(n);
    }
  }

  lemma {:induction false} RunKeepsScope(qs: seq<Query>, q: Query, rows: seq<Row>)
    requires (forall i :: 0 <= i < |qs| ==> Apart(qs[i], q)) && !RunAll(qs, rows).1
    ensures ScopeKept(q, rows, RunAll(qs, rows).0)
    decreases |qs|
  {
    hide ReconcileQuery, Raises, ScopeKept, Apart;
    if qs == [] {
      ScopeUntouched(q, rows);
    } else {
      var mid := ReconcileQuery(qs[0], rows).0;
      QueryIs(qs[0], rows);
      QueryKeepsScope(qs[0], q, rows);
      RunKeepsScope(qs[1..], q, mid);
      ScopeThrough(q, rows, mid, RunAll(qs, rows).0);
    }
  }

  lemma ScopeUntouched(q: Query, rows: seq<Row>)
    ensures ScopeKept(q, rows, rows)
  {
    hide Open, InScope;
  }

  lemma ScopeThrough(q: Query, rows: seq<Row>, mid: seq<Row>, after: seq<Row>)
    requires ScopeKept(q, rows, mid) && ScopeKept(q, mid, after)
    ensures ScopeKept(q, rows, after)
  {
    forall i | 0 <= i < |rows| ensures SameOrder(rows[i], after[i]) {
      assert SameOrder(rows[i], mid[i]) && SameOrder(mid[i], after[i]);
    }
  }

  lemma HandledBefore(q: Query, rows: seq<Row>, mid: seq<Row>, after: seq<Row>)
    requires ScopeKept(q, rows, mid) && Handled(q, mid, after)
    ensures Handled(q, rows, after)
    ensures forall row :: AddedBy(q, mid, row) ==> AddedBy(q, rows, row)
  {
    hide Unknown, ReconciledIn, Settled, Newcomer;
    SeesTheSame(q, rows, mid);
  }

  lemma HandledAfter(q: Query, rows: seq<Row>, mid: seq<Row>, after: seq<Row>)
    requires Handled(q, rows, mid) && ScopeKept(q, mid, after)
    requires forall i :: 0 <= i < |rows| ==> SameOrder(rows[i], mid[i])
    ensures Handled(q, rows, after)
  {
    hide Unknown, ReconciledIn, Settled;
    IdsStay(mid, after);
  }

  lemma {:induction false} RunLeaves(qs: seq<Query>, rows: seq<Row>)
    requires AllTogether(qs) && !RunAll(qs, rows).1
    ensures Leaves(qs, rows, RunAll(qs, rows).0)
    decreases |qs|
  {
    hide ReconcileQuery, Raises, InScope, Open, Together, Handled, AddedBy;
    if qs != [] {
      var rest := qs[1..];
      var mid, after := ReconcileQuery(qs[0], rows).0, RunAll(qs, rows).0;
      QueryIs(qs[0], rows);
      assert after == RunAll(rest, mid).0;
      QueryHandles(qs[0], rows);
      Others(qs);
      AreApart(qs);
      RunLeaves(rest, mid);
      RunKeepsScope(rest, qs[0], mid);
      HandledAfter(qs[0], rows, mid, after);
      forall i | 0 <= i < |rest|
        ensures Handled(rest[i], rows, after)
        ensures forall row :: AddedBy(rest[i], mid, row) ==> AddedBy(rest[i], rows, row)
      {
        QueryKeepsScope(qs[0], rest[i], rows);
        HandledBefore(rest[i], rows, mid, after);
      }
      assert qs == [qs[0]] + rest;
      forall i | |rows| <= i < |after| ensures AddedBySome(qs, rows, after[i]) {
        if i < |mid| {
          assert after[i] == mid[i] && qs[0] in qs;
        } else {
          assert AddedBySome(rest, mid, after[i]);
          var q :| q in rest && AddedBy(q, mid, after[i]);
          assert q in qs;
        }
      }
    }
  }

  lemma AreApart(qs: seq<Query>)
    requires qs != [] && AllTogether(qs)
    ensures forall i :: 0 <= i < |qs| - 1 ==> Apart(qs[0], qs[1..][i]) && Apart(qs[1..][i], qs[0])
  {
    hide KeyFor;
    Others(qs);
  }

  // ----- the second run -----

  /** A run leaves a table alone if and only if each of its queries does. */
  lemma RunIdle(qs: seq<Query>, rows: seq<Row>)
    requires AllTogether(qs)
    ensures RunAll(qs, rows) == (rows, false) <==> forall q :: q in qs ==> ReconcileQuery(q, rows) == (rows, false)
  {
    hide RunAll, ReconcileQuery, Raises, Together;
    if RunAll(qs, rows) == (rows, false) {
      RunRaisesIff(qs, rows);
      RunLeaves(qs, rows);
      forall q | q in qs ensures ReconcileQuery(q, rows) == (rows, false) {
        var i :| 0 <= i < |qs| && qs[i] == q;
        HandledIdle(q, rows);
      }
    }
    if forall q :: q in qs ==> ReconcileQuery(q, rows) == (rows, false) {
      AllIdle(qs, rows);
    }
  }

  lemma HandledIdle(q: Query, rows: seq<Row>)
    requires Handled(q, rows, rows) && !Raises(q, rows)
    ensures ReconcileQuery(q, rows) == (rows, false)
  {
    hide ReconcileQuery, Raises, Reconciled, Unknown, AttemptsOf, KeyFor, KeyKnown, Succeeds;
    QueryIdle(q, rows);
    if Heard(q, rows) {
      assert Pass(q, rows) == rows;
      AttemptsUnsettled(q, rows);
    }
  }

  lemma AttemptsUnsettled(q: Query, rows: seq<Row>)
    ensures Attempts(q, rows) != [] ==> exists n :: n in Unknown(q, rows) && !Settled(q, rows, n)
  {
    hide Unknown, AttemptsOf, KeyFor, KeyKnown, Succeeds;
    AttemptsAre(q, rows, Unknown(q, rows));
    var ns := Attempts(q, rows);
    if ns != [] {
      assert ns[0] in ns;
      assert !Settled(q, rows, ns[0]);
    }
  }

  lemma {:induction false} AllIdle(qs: seq<Query>, rows: seq<Row>)
    requires forall q :: q in qs ==> ReconcileQuery(q, rows) == (rows, false)
    ensures RunAll(qs, rows) == (rows, false)
    decreases |qs|
  {
    hide ReconcileQuery;
    if qs != [] {
      assert qs == [qs[0]] + qs[1..];
      AllIdle(qs[1..], rows);
    }
  }

  /** An order the first run registered without any execution, on paper at market close: the second run expires it. */
  ghost predicate ExpiresNext(q: Query, before: nat, rows: seq<Row>) {
    q.closing && !q.live
    && exists i :: before <= i < |rows| && InScope(q, rows[i]) && rows[i].status.Accepted? && HasOrdNo(rows[i])
  }

  /** An order the first run closed although its number is still listed: the second run takes it for an unknown one. */
  ghost predicate Reappears(q: Query, rows: seq<Row>, after: seq<Row>) {
    exists i :: 0 <= i < |rows| && i < |after| && ReappearsAs(q, rows[i], after, after[i])
  }

  ghost predicate ReappearsAs(q: Query, row: Row, after: seq<Row>, d: Row) {
    OpenIn(q, row) && Terminal(d.status) && row.brokerId.Some? && row.brokerId.value in Attempts(q, after)
  }

  /** The numbers a second run attempts are those of orders the first run closed. */
  lemma AttemptsReappear(qs: seq<Query>, q: Query, rows: seq<Row>, after: seq<Row>)
    requires Leaves(qs, rows, after) && q in qs && Heard(q, rows)
    ensures Attempts(q, after) == [] <==> !Reappears(q, rows, after)
  {
    hide Reconciled, Newcomer, KeyFor, KeyKnown, Succeeds, AttemptsOf, Select, Numbers, AddedBySome;
    UnknownAre(q, rows);
    UnknownAre(q, after);
    AttemptsAre(q, after, Unknown(q, after));
    assert Handled(q, rows, after);
    forall n | n in Attempts(q, after) ensures Reappears(q, rows, after) {
      assert !Settled(q, after, n);
      assert n in Unknown(q, after) && n !in Unknown(q, rows);
      assert Sought(q, after, n) && !Sought(q, rows, n);
      var i :| 0 <= i < |rows| && OpenIn(q, rows[i]) && rows[i].brokerId == Some(n);
      assert SameOrder(rows[i], after[i]);
      assert ReappearsAs(q, rows[i], after, after[i]);
    }
    if Attempts(q, after) != [] {
      assert Attempts(q, after)[0] in Attempts(q, after);
    }
  }

  lemma AcceptedUnfilled(row: Row)
    requires RowInv(row)
    ensures row.status.Accepted? ==> row.fills == []
  {
  }

  ghost predicate InOneScope(qs: seq<Query>) {
    forall a, b :: a in qs && b in qs && a != b ==> Apart(a, b)
  }

  lemma ScopesApart(qs: seq<Query>)
    requires AllTogether(qs)
    ensures InOneScope(qs)
  {
    hide KeyFor;
    forall a, b | a in qs && b in qs && a != b ensures Apart(a, b) {
      var i :| 0 <= i < |qs| && qs[i] == a;
      var j :| 0 <= j < |qs| && qs[j] == b;
      assert Together(qs[if i < j then i else j], qs[if i < j then j else i]);
    }
  }

  lemma AddedAgain(qs: seq<Query>, q: Query, rows: seq<Row>, row: Row)
    requires InOneScope(qs) && q in qs && AddedBySome(qs, rows, row)
    ensures ReconciledIn(q, row) == row
       <==> !(q.closing && !q.live && InScope(q, row) && row.status.Accepted? && HasOrdNo(row))
  {
    hide ReconciledIn, AddedBy;
    var p :| p in qs && AddedBy(p, rows, row);
    AddedIsOf(p, rows, row);
    if p == q {
      AddedByItself(q, rows, row);
    } else {
      OutOfScope(q, row);
    }
  }

  lemma OutOfScope(q: Query, row: Row)
    ensures !InScope(q, row) ==> ReconciledIn(q, row) == row
  {
  }

  lemma AddedByItself(q: Query, rows: seq<Row>, row: Row)
    requires AddedBy(q, rows, row)
    ensures ReconciledIn(q, row) == row <==> !(q.closing && !q.live && row.status.Accepted? && HasOrdNo(row))
  {
    hide ReconciledIn, Newcomer, Unknown;
    var n :| n in Unknown(q, rows) && row == Newcomer(q, n);
    UnknownAre(q, rows);
    NewcomerAgain(q, n);
  }

  lemma PassAgain(qs: seq<Query>, q: Query, rows: seq<Row>, after: seq<Row>)
    requires forall i :: 0 <= i < |rows| ==> RowInv(rows[i])
    requires AllTogether(qs) && Leaves(qs, rows, after) && q in qs && Heard(q, rows)
    ensures Pass(q, after) == after <==> !ExpiresNext(q, |rows|, after)
  {
    hide Reconciled, RowInv, AddedBySome, Heard, Unknown, Settled, InOneScope, AllTogether;
    ScopesApart(qs);
    assert Handled(q, rows, after);
    forall i | 0 <= i < |rows| ensures ReconciledIn(q, after[i]) == after[i] {
      assert SameOrder(rows[i], after[i]);
      AcceptedUnfilled(rows[i]);
      ReconciledInTwice(q, rows[i]);
    }
    forall i | |rows| <= i < |after|
      ensures ReconciledIn(q, after[i]) == after[i]
         <==> !(q.closing && !q.live && InScope(q, after[i]) && after[i].status.Accepted? && HasOrdNo(after[i]))
    {
      AddedAgain(qs, q, rows, after[i]);
    }
    PassIsSame(q, after);
  }

  lemma PassIsSame(q: Query, rows: seq<Row>)
    ensures Pass(q, rows) == rows <==> forall i :: 0 <= i < |rows| ==> ReconciledIn(q, rows[i]) == rows[i]
  {
    hide ReconciledIn;
    if Pass(q, rows) == rows {
      forall i | 0 <= i < |rows| ensures ReconciledIn(q, rows[i]) == rows[i] {
        assert Pass(q, rows)[i] == rows[i];
      }
    }
  }

  ghost predicate QuietNext(q: Query, rows: seq<Row>, after: seq<Row>) {
    Heard(q, after) ==> !ExpiresNext(q, |rows|, after) && !Reappears(q, rows, after)
  }

  lemma QueryAgain(qs: seq<Query>, q: Query, rows: seq<Row>, after: seq<Row>)
    requires forall i :: 0 <= i < |rows| ==> RowInv(rows[i])
    requires AllTogether(qs) && Leaves(qs, rows, after) && q in qs && !Raises(q, rows)
    requires Asked(q, after) ==> Asked(q, rows)
    ensures ReconcileQuery(q, after) == (after, false) <==> QuietNext(q, rows, after)
  {
    hide ReconcileQuery, Asked, ExpiresNext, Reappears, Leaves, RowInv, AllTogether, Attempts, Pass;
    QueryIdle(q, after);
    if Heard(q, after) {
      PassAgain(qs, q, rows, after);
      AttemptsReappear(qs, q, rows, after);
    }
  }

  /** What a second run asks the first one asked. */
  lemma QueriesStay(feed: Feed, rows: seq<Row>, after: seq<Row>, q: Query)
    requires Leaves(Queries(feed, rows), rows, after) && q in Queries(feed, after)
    ensures q in Queries(feed, rows) && (Asked(q, after) ==> Asked(q, rows))
  {
    hide Handled, AddedBySome, QueryFor;
    if !feed.live {
      var s :| s in OpenSymbols(after, 0) && q == QueryFor(feed, FUTURES, Some(s));
      var i :| 0 <= i < |after| && OpenPaper(after[i]) && after[i].symbol == s;
      PaperSymbolStays(feed, rows, after, i);
    } else {
      LiveIsAsked(feed, rows, q);
    }
  }

  lemma LiveIsAsked(feed: Feed, rows: seq<Row>, q: Query)
    requires feed.live && q in Queries(feed, rows)
    ensures Asked(q, rows)
  {
  }

  lemma PaperSymbolStays(feed: Feed, rows: seq<Row>, after: seq<Row>, i: nat)
    requires !feed.live && Leaves(Queries(feed, rows), rows, after) && i < |after| && OpenPaper(after[i])
    ensures var q := QueryFor(feed, FUTURES, Some(after[i].symbol)); q in Queries(feed, rows) && Asked(q, rows)
  {
    hide Handled, AddedBy;
    if i < |rows| {
      assert SameOrder(rows[i], after[i]);
      QueryOf(feed, rows, i);
    } else {
      assert AddedBySome(Queries(feed, rows), rows, after[i]);
      var p :| p in Queries(feed, rows) && AddedBy(p, rows, after[i]);
      AddedIsOf(p, rows, after[i]);
      PaperQueryIs(feed, rows, p);
    }
  }

  lemma PaperQueryIs(feed: Feed, rows: seq<Row>, q: Query)
    requires !feed.live && q in Queries(feed, rows)
    ensures q.symbol.Some? && q == QueryFor(feed, FUTURES, q.symbol)
  {
  }

  lemma QueryOf(feed: Feed, rows: seq<Row>, i: nat)
    requires !feed.live && i < |rows| && OpenPaper(rows[i])
    ensures var q := QueryFor(feed, FUTURES, Some(rows[i].symbol)); q in Queries(feed, rows) && Asked(q, rows)
  {
    var symbols := OpenSymbols(rows, 0);
    assert rows[i].symbol in symbols;
    var j :| 0 <= j < |symbols| && symbols[j] == rows[i].symbol;
    assert Queries(feed, rows)[j] == QueryFor(feed, FUTURES, Some(rows[i].symbol));
    assert OpenIn(QueryFor(feed, FUTURES, Some(rows[i].symbol)), rows[i]);
  }

  lemma AddedIsOf(q: Query, rows: seq<Row>, row: Row)
    requires AddedBy(q, rows, row)
    ensures InScope(q, row) && Asked(q, rows)
  {
    hide Unknown, Newcomer;
    var n :| n in Unknown(q, rows) && row == Newcomer(q, n);
    UnknownAre(q, rows);
    NewcomerIs(q, n);
  }

  /** A second run over the same listing changes nothing and does not raise if and only if the first run neither
      registered an order that the second will expire, nor closed one whose number is still listed and which the second
      would register, in the scope of a query that the second still asks. */
  lemma SecondRunChangesNothingIff(feed: Feed, rows: seq<Row>)
    requires forall i :: 0 <= i < |rows| ==> RowInv(rows[i])
    requires !ReconcileRun(feed, rows).1
    ensures var once := ReconcileRun(feed, rows).0;
            ReconcileRun(feed, once) == (once, false)
            <==> forall q :: q in Queries(feed, once) ==> QuietNext(q, rows, once)
  {
    hide RowInv, RunAll, Leaves, QuietNext, Queries, ReconcileQuery, AllTogether, Raises, Asked;
    var qs := Queries(feed, rows);
    var once := ReconcileRun(feed, rows).0;
    QueriesTogether(feed, rows);
    QueriesTogether(feed, once);
    RunRaisesIff(qs, rows);
    RunLeaves(qs, rows);
    RunIdle(Queries(feed, once), once);
    forall q | q in Queries(feed, once)
      ensures ReconcileQuery(q, once) == (once, false) <==> QuietNext(q, rows, once)
    {
      QueriesStay(feed, rows, once, q);
      QueryAgain(qs, q, rows, once);
    }
  }
}
