/** Runs whose repetition does change something, and one on paper that only looks as if it would. */
module SecondRunWitness {
  import opened BrokerReports
  import opened MarketReconcile
  import opened OrderEdits
  import opened OrderLedger
  import opened OrderReconcile
  import opened OrderRuns
  import opened OrderStates
  import opened ReconcileRuns
  import opened Wrappers

  // ----- one listed row -----

  lemma ListedAlone(q: Query, r: BrokerRow, rows: seq<Row>)
    requires q.listed == [r]
    ensures Matching(q.listed, r.ordNo) == [r]
    ensures Unknown(q, rows) == if Sought(q, rows, r.ordNo) then [r.ordNo] else []
    ensures !KeyKnown(rows, KeyFor(q, r.ordNo)) && r.orgNo.GetOr("") == "" ==> Attempts(q, rows) == Unknown(q, rows)
  {
    hide Sought, KeyFor, KeyKnown;
    assert [r][1..] == [] && [r][..0] == [] && [r.ordNo][1..] == [] && [r.ordNo][..0] == [];
    assert Numbers([r]) == [r.ordNo];
    assert Select(q, rows, []) == [] && AttemptsOf(q, rows, []) == [];
  }

  lemma ListedUnfilled(q: Query, r: BrokerRow)
    requires q.listed == [r] && r.execQty <= 0.0
    ensures FillsOf(Matching(q.listed, r.ordNo)) == []
    ensures Newcomer(q, r.ordNo) == NewcomerRow(q, r.ordNo)
  {
    ListedAlone(q, r, []);
    assert [r][1..] == [];
  }

  lemma UnfilledExpires(q: Query, row: Row)
    requires !q.live && q.closing && OpenIn(q, row) && row.status.Accepted? && HasOrdNo(row)
    requires Matching(q.listed, row.brokerId.value) != []
    requires FillsOf(Matching(q.listed, row.brokerId.value)) == []
    ensures ReconciledIn(q, row).status.Expired?
  {
  }

  lemma FilledBy(q: Query, r: BrokerRow, row: Row)
    requires Matching(q.listed, r.ordNo) == [r] && InScope(q, row)
    requires row.status.Accepted? && row.fills == [] && row.relation.New? && row.brokerId == Some(r.ordNo)
    requires r.ordNo != "" && r.execQty > 0.0 && r.remaining == Some(0.0)
    ensures ReconciledIn(q, row).status.Filled?
  {
    hide ApplyFill;
    var f := OpenOrderToFill(r).value;
    assert [r][1..] == [];
    assert FillsOf([r]) == [f];
    DeliverOne(row, f);
    FirstFill(row, f);
  }

  lemma UnnumberedStays(q: Query, row: Row)
    requires row.brokerId.None?
    ensures ReconciledIn(q, row) == row
  {
  }

  // ----- one query -----

  lemma OneSymbol(feed: Feed, rows: seq<Row>, symbol: string)
    requires !feed.live && (exists i :: 0 <= i < |rows| && OpenPaper(rows[i]))
    requires forall i :: 0 <= i < |rows| && OpenPaper(rows[i]) ==> rows[i].symbol == symbol
    ensures Queries(feed, rows) == [QueryFor(feed, FUTURES, Some(symbol))]
    ensures ReconcileRun(feed, rows) == ReconcileQuery(QueryFor(feed, FUTURES, Some(symbol)), rows)
  {
    hide ReconcileQuery, OpenPaper, QueryFor;
    OnlyOne(OpenSymbols(rows, 0), symbol);
    OneQuery(QueryFor(feed, FUTURES, Some(symbol)), rows);
  }

  lemma OnlyOne(ns: seq<string>, n: string)
    requires DistinctNumbers(ns) && ns != [] && forall m :: m in ns ==> m == n
    ensures ns == [n]
  {
    if |ns| > 1 {
      TwoDiffer(ns);
    }
    assert ns[0] in ns;
  }

  lemma TwoDiffer(ns: seq<string>)
    requires DistinctNumbers(ns) && |ns| > 1
    ensures ns[0] != ns[1] && ns[0] in ns && ns[1] in ns
  {
  }

  lemma OneQuery(q: Query, rows: seq<Row>)
    ensures RunAll([q], rows) == ReconcileQuery(q, rows)
  {
    hide ReconcileQuery;
    assert [q][1..] == [];
  }

  // ----- a newcomer expires -----

  lemma NewcomerExpiresIn(q: Query, other: Row, r: BrokerRow)
    requires !q.live && q.closing && q.answered && q.listed == [r] && r.execQty <= 0.0 && r.ordNo != ""
    requires OpenIn(q, other) && other.brokerId.None? && other.key != KeyFor(q, r.ordNo) && r.orgNo.None?
    ensures var (once, raised) := ReconcileQuery(q, [other]);
            && !raised && once == [other, NewcomerRow(q, r.ordNo)]
            && var (twice, again) := ReconcileQuery(q, once);
            !again && |twice| == 2 && twice[1].status.Expired?
  {
    hide Matching, FillsOf, Unknown, Newcomer, NewcomerRow, KeyFor, AttemptsOf, ReconcileQuery, ReconciledIn;
    var n, row := r.ordNo, NewcomerRow(q, r.ordNo);
    ListedAlone(q, r, [other]);
    ListedUnfilled(q, r);
    UnnumberedStays(q, other);
    assert [other][0] == other && Asked(q, [other]);
    assert Attempts(q, [other]) == [n];
    QueryIs(q, [other]);
    assert Pass(q, [other]) == [other] && Newcomers(q, [n]) == [row];
    var once := [other, row];
    assert !Taken([other], q.account, n);
    assert !Raises(q, [other]) && [other] + [row] == once;
    assert ReconcileQuery(q, [other]) == (once, false);
    NewcomerIs(q, n);
    assert once[0] == other && once[1] == row && Asked(q, once) && CarriedOpen(q, once, n);
    UnknownAre(q, once);
    ListedAlone(q, r, once);
    NothingTried(q, once);
    QueryIs(q, once);
    UnfilledExpires(q, row);
    assert Newcomers(q, []) == [];
  }

  lemma NothingTried(q: Query, rows: seq<Row>)
    requires Unknown(q, rows) == []
    ensures Attempts(q, rows) == []
  {
  }

  /** An order nobody knew, listed without executions beside one that stays in doubt, is accepted by the first paper run
      at market close and expired by the second. */
  lemma NewcomerExpires(feed: Feed, other: Row, r: BrokerRow)
    requires !feed.live && feed.closing && feed.answer(other.symbol) == Some([r])
    requires r.execQty <= 0.0 && r.ordNo != "" && r.orgNo.None?
    requires OpenPaper(other) && other.brokerId.None? && other.key != "recon:" + r.ordNo
    ensures var (once, raised) := ReconcileRun(feed, [other]);
            && !raised && |once| == 2 && once[0] == other && once[1].status.Accepted?
            && var (twice, again) := ReconcileRun(feed, once);
            !again && |twice| == 2 && twice[1].status.Expired?
  {
    hide ReconcileQuery, NewcomerRow, Queries, RunAll;
    var q := QueryFor(feed, FUTURES, Some(other.symbol));
    NewcomerExpiresIn(q, other, r);
    assert [other][0] == other;
    OneSymbol(feed, [other], other.symbol);
    var once := [other, NewcomerRow(q, r.ordNo)];
    ListedAlone(q, r, []);
    NewcomerIs(q, r.ordNo);
    assert once[0] == other;
    OneSymbol(feed, once, other.symbol);
  }

  // ----- a filled order reappears -----

  /** `row` was placed by the account itself, and `r` reports it filled. */
  ghost predicate FilledAtBroker(account: Option<nat>, row: Row, r: BrokerRow) {
    && account.Some? && row.account == account && row.brokerId == Some(r.ordNo) && r.ordNo != "" && r.orgNo.None?
    && row.status.Accepted? && row.fills == [] && row.relation.New?
    && r.execQty > 0.0 && r.remaining == Some(0.0)
  }

  lemma FilledOnce(q: Query, rows: seq<Row>, r: BrokerRow)
    requires q.answered && q.listed == [r] && |rows| > 0 && FilledAtBroker(q.account, rows[0], r) && InScope(q, rows[0])
    requires forall i :: 1 <= i < |rows| ==> rows[i].brokerId.None?
    ensures var (once, raised) := ReconcileQuery(q, rows);
            && !raised && |once| == |rows| && once[0].status.Filled? && SameOrder(rows[0], once[0])
            && forall i :: 1 <= i < |rows| ==> once[i] == rows[i]
  {
    hide Matching, Unknown, KeyFor, AttemptsOf, ReconcileQuery, ReconciledIn, SameOrder;
    ListedAlone(q, r, rows);
    UnknownAre(q, rows);
    assert Asked(q, rows) && CarriedOpen(q, rows, r.ordNo);
    NothingTried(q, rows);
    QueryIs(q, rows);
    assert Newcomers(q, []) == [];
    FilledBy(q, r, rows[0]);
    ReconciledSame(q, rows[0]);
    forall i | 1 <= i < |rows| ensures ReconciledIn(q, rows[i]) == rows[i] {
      UnnumberedStays(q, rows[i]);
    }
  }

  lemma FilledInTheWay(q: Query, rows: seq<Row>, r: BrokerRow)
    requires q.answered && q.listed == [r] && |rows| > 0 && Asked(q, rows) && r.orgNo.None? && r.ordNo != ""
    requires Terminal(rows[0].status) && q.account.Some? && rows[0].account == q.account
    requires rows[0].brokerId == Some(r.ordNo)
    requires forall i :: 1 <= i < |rows| ==> rows[i].brokerId.None?
    requires forall i :: 0 <= i < |rows| ==> rows[i].key != KeyFor(q, r.ordNo)
    ensures Raises(q, rows)
  {
    hide Matching, Unknown, KeyFor, AttemptsOf, Asked;
    ListedAlone(q, r, rows);
    assert Sought(q, rows, r.ordNo);
    assert Attempts(q, rows) == [r.ordNo];
    assert r.ordNo in Attempts(q, rows);
  }

  /** An order of the account, listed as filled, next to a paper order that stays in doubt: the first run closes it, the
      second takes its number for an unknown one and raises. */
  lemma FilledRaises(feed: Feed, row: Row, other: Row, r: BrokerRow)
    requires row.market == (if feed.live then KOREA else FUTURES)
    requires FilledAtBroker(AccountFor(feed.accounts, row.market), row, r)
    requires OpenPaper(other) && other.symbol == row.symbol && other.brokerId.None?
    requires feed.answer(if feed.live then KOREA else row.symbol) == Some([r])
    requires feed.live ==> feed.answer(OVERSEAS).None?
    requires var key := if feed.live then "recon:" + KOREA + ":" + r.ordNo else "recon:" + r.ordNo;
             row.key != key && other.key != key
    ensures var (once, raised) := ReconcileRun(feed, [row, other]);
            && !raised && |once| == 2 && once[0].status.Filled? && once[1] == other
            && ReconcileRun(feed, once).1
  {
    hide ReconcileQuery, RunAll, Raises, OpenPaper, QueryFor;
    var rows := [row, other];
    assert rows[0] == row && rows[1] == other;
    if feed.live {
      LiveFilledRaises(feed, rows, r);
    } else {
      PaperFilledRaises(feed, rows, r);
    }
  }

  lemma LiveFilledRaises(feed: Feed, rows: seq<Row>, r: BrokerRow)
    requires feed.live && feed.answer(KOREA) == Some([r]) && feed.answer(OVERSEAS).None?
    requires |rows| == 2 && rows[0].market == KOREA && rows[1].brokerId.None?
    requires FilledAtBroker(AccountFor(feed.accounts, KOREA), rows[0], r)
    requires forall i :: 0 <= i < 2 ==> rows[i].key != "recon:" + KOREA + ":" + r.ordNo
    ensures var (once, raised) := ReconcileRun(feed, rows);
            && !raised && |once| == 2 && once[0].status.Filled? && once[1] == rows[1]
            && ReconcileRun(feed, once).1
  {
    hide ReconcileQuery, RunAll, Raises;
    var q := QueryFor(feed, KOREA, None);
    FilledOnce(q, rows, r);
    LiveFirstOnly(feed, rows);
    var once := ReconcileRun(feed, rows).0;
    FilledInTheWay(q, once, r);
    assert q in Queries(feed, once);
    RaisesIff(feed, once);
  }

  lemma PaperFilledRaises(feed: Feed, rows: seq<Row>, r: BrokerRow)
    requires |rows| == 2 && OpenPaper(rows[1]) && rows[0].symbol == rows[1].symbol
    requires !feed.live && feed.answer(rows[1].symbol) == Some([r])
    requires rows[0].market == FUTURES && rows[1].brokerId.None?
    requires FilledAtBroker(AccountFor(feed.accounts, FUTURES), rows[0], r)
    requires forall i :: 0 <= i < 2 ==> rows[i].key != "recon:" + r.ordNo
    ensures var (once, raised) := ReconcileRun(feed, rows);
            && !raised && |once| == 2 && once[0].status.Filled? && once[1] == rows[1]
            && ReconcileRun(feed, once).1
  {
    hide ReconcileQuery, RunAll, Raises, OpenPaper, Queries;
    var q := QueryFor(feed, FUTURES, Some(rows[1].symbol));
    FilledOnce(q, rows, r);
    OneSymbol(feed, rows, rows[1].symbol);
    var once := ReconcileRun(feed, rows).0;
    StillAsked(q, once, rows[1]);
    FilledInTheWay(q, once, r);
    assert OpenPaper(once[1]);
    OneSymbol(feed, once, rows[1].symbol);
    assert q in Queries(feed, once);
    RaisesIff(feed, once);
  }

  lemma StillAsked(q: Query, rows: seq<Row>, other: Row)
    requires |rows| > 1 && rows[1] == other
    requires !q.live ==> OpenPaper(other) && q.market == FUTURES && q.symbol == Some(other.symbol)
    ensures Asked(q, rows)
  {
  }

  lemma PaperOpen(row: Row)
    requires row.status.Accepted? && row.relation.New? && row.market == FUTURES
    ensures OpenPaper(row)
  {
  }

  lemma LiveFirstOnly(feed: Feed, rows: seq<Row>)
    requires feed.live && feed.answer(OVERSEAS).None?
    requires !ReconcileQuery(QueryFor(feed, KOREA, None), rows).1
    ensures ReconcileRun(feed, rows) == ReconcileQuery(QueryFor(feed, KOREA, None), rows)
  {
    var a, b := QueryFor(feed, KOREA, None), QueryFor(feed, OVERSEAS, None);
    assert [a, b][1..] == [b];
    OneQuery(b, ReconcileQuery(a, rows).0);
    assert ReconcileQuery(b, ReconcileQuery(a, rows).0) == (ReconcileQuery(a, rows).0, false);
  }

  /** Without the other order the second paper run asks nothing and stays silent, although the number is still
      listed. */
  lemma FilledAloneIsQuiet(feed: Feed, row: Row, r: BrokerRow)
    requires !feed.live && row.market == FUTURES
    requires FilledAtBroker(AccountFor(feed.accounts, FUTURES), row, r) && feed.answer(row.symbol) == Some([r])
    ensures var (once, raised) := ReconcileRun(feed, [row]);
            && !raised && |once| == 1 && once[0].status.Filled? && ReconcileRun(feed, once) == (once, false)
  {
    hide ReconcileQuery, RunAll, OpenPaper;
    var q := QueryFor(feed, FUTURES, Some(row.symbol));
    assert [row][0] == row;
    PaperOpen(row);
    FilledOnce(q, [row], r);
    OneSymbol(feed, [row], row.symbol);
    var once := ReconcileRun(feed, [row]).0;
    FilledIsClosed(once[0]);
    NothingOpenNothingAsked(feed, once);
  }

  lemma FilledIsClosed(row: Row)
    ensures row.status.Filled? ==> !OpenPaper(row)
  {
  }
}
