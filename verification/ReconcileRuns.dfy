/** Whole reconciliation runs (`_reconcile_paper` and `_reconcile_live` of server/app/services/order_service.py): a
    query per symbol of the open paper orders, or one per live market. */
module ReconcileRuns {
  import opened BrokerReports
  import opened MarketReconcile
  import opened OrderLedger
  import opened OrderReconcile
  import opened OrderRuns
  import opened OrdersDb
  import opened OrderStates
  import RiskGate
  import opened Wrappers

  const KOREA := RiskGate.MarketName(RiskGate.KoreaStock)
  const OVERSEAS := RiskGate.MarketName(RiskGate.OverseasStock)
  const FUTURES := RiskGate.MarketName(RiskGate.OverseasFutures)

  /** What a run meets: the market of each account, and the broker's answer for each symbol (on paper) or market. */
  datatype Feed = Feed(live: bool, closing: bool, accounts: seq<string>, answer: string -> Option<seq<BrokerRow>>)

  /** The first account of the market. */
  function AccountFor(accounts: seq<string>, market: string): (r: Option<nat>)
    ensures r.Some? ==> r.value < |accounts| && accounts[r.value] == market && market !in accounts[..r.value]
    ensures r.None? ==> market !in accounts
  {
    if accounts == [] then None
    else
      var before := AccountFor(accounts[..|accounts| - 1], market);
      if before.None? && accounts[|accounts| - 1] == market then Some(|accounts| - 1) else before
  }

  function QueryFor(feed: Feed, market: string, symbol: Option<string>): Query {
    var answer := feed.answer(symbol.GetOr(market));
    Query(AccountFor(feed.accounts, market), market, symbol, feed.live, feed.closing, answer.Some?, answer.GetOr([]))
  }

  predicate OpenPaper(row: Row) {
    Open(row) && row.market == FUTURES
  }

  /** The symbols of the open paper orders from `from` on, newest order first. */
  function OpenSymbols(rows: seq<Row>, from: nat): (symbols: seq<string>)
    requires from <= |rows|
    ensures DistinctNumbers(symbols)
    ensures forall s :: s in symbols <==> exists i :: from <= i < |rows| && OpenPaper(rows[i]) && rows[i].symbol == s
    ensures symbols == [] <==> forall i :: from <= i < |rows| ==> !OpenPaper(rows[i])
    decreases |rows| - from
  {
    if from == |rows| then []
    else
      var newer := OpenSymbols(rows, from + 1);
      if OpenPaper(rows[from]) && rows[from].symbol !in newer then newer + [rows[from].symbol] else newer
  }

  function Queries(feed: Feed, rows: seq<Row>): seq<Query> {
    if feed.live then [QueryFor(feed, KOREA, None), QueryFor(feed, OVERSEAS, None)]
    else
      var symbols := OpenSymbols(rows, 0);
      seq(|symbols|, i requires 0 <= i < |symbols| => QueryFor(feed, FUTURES, Some(symbols[i])))
  }

  /** The queries of a run: one for each live market, or one for each paper symbol with an open order and no other, each
      once; each for the market's first account, with the answer it gets. */
  lemma QueriesAre(feed: Feed, rows: seq<Row>)
    ensures var qs := Queries(feed, rows);
            && (feed.live ==> |qs| == 2 && qs[0].market == "korea_stock" && qs[1].market == "overseas_stock"
                              && qs[0].symbol.None? && qs[1].symbol.None?)
            && (!feed.live ==>
                  && (forall s :: (exists q :: q in qs && q.symbol == Some(s)) <==> AnOpenOrder(rows, s))
                  && (forall q <- qs :: q.symbol.Some? && q.market == "overseas_futureoption")
                  && (forall i, j :: 0 <= i < j < |qs| ==> qs[i].symbol != qs[j].symbol))
            && forall q <- qs :: AsksFor(feed, q)
  {
    hide AsksFor, QueryFor, OpenSymbols;
    if feed.live {
      QueryForIs(feed, KOREA, None);
      QueryForIs(feed, OVERSEAS, None);
    } else {
      var qs, symbols := Queries(feed, rows), OpenSymbols(rows, 0);
      forall i | 0 <= i < |qs|
        ensures qs[i].symbol == Some(symbols[i]) && qs[i].market == FUTURES && AsksFor(feed, qs[i])
      {
        QueryForIs(feed, FUTURES, Some(symbols[i]));
      }
      forall s ensures (exists q :: q in qs && q.symbol == Some(s)) <==> AnOpenOrder(rows, s) {
        Symbolled(qs, symbols, s);
        OpenSymbolsAre(rows, s);
      }
    }
  }

  ghost predicate AnOpenOrder(rows: seq<Row>, symbol: string) {
    exists i :: 0 <= i < |rows| && !Terminal(rows[i].status) && rows[i].relation.New?
                && rows[i].market == "overseas_futureoption" && rows[i].symbol == symbol
  }

  lemma Symbolled(qs: seq<Query>, symbols: seq<string>, s: string)
    requires |qs| == |symbols| && forall i :: 0 <= i < |qs| ==> qs[i].symbol == Some(symbols[i])
    ensures (exists q :: q in qs && q.symbol == Some(s)) <==> s in symbols
  {
    if s in symbols {
      var i :| 0 <= i < |symbols| && symbols[i] == s;
      assert qs[i] in qs;
    }
  }

  lemma OpenSymbolsAre(rows: seq<Row>, s: string)
    ensures s in OpenSymbols(rows, 0) <==> AnOpenOrder(rows, s)
  {
    if s in OpenSymbols(rows, 0) {
      var i :| 0 <= i < |rows| && OpenPaper(rows[i]) && rows[i].symbol == s;
      assert rows[i].market == "overseas_futureoption";
    }
    if AnOpenOrder(rows, s) {
      var i :| 0 <= i < |rows| && !Terminal(rows[i].status) && rows[i].relation.New?
               && rows[i].market == "overseas_futureoption" && rows[i].symbol == s;
      assert OpenPaper(rows[i]);
    }
  }

  ghost predicate AsksFor(feed: Feed, q: Query) {
    var answer := feed.answer(if q.symbol.Some? then q.symbol.value else q.market);
    && q.live == feed.live && q.closing == feed.closing && q.answered == answer.Some?
    && (answer.Some? ==> q.listed == answer.value)
    && (if q.account.Some? then q.account.value < |feed.accounts| && feed.accounts[q.account.value] == q.market
                                && q.market !in feed.accounts[..q.account.value]
        else q.market !in feed.accounts)
  }

  lemma QueryForIs(feed: Feed, market: string, symbol: Option<string>)
    ensures var q := QueryFor(feed, market, symbol); AsksFor(feed, q) && q.market == market && q.symbol == symbol
  {
  }

  /** The queries one after the other; an exception ends the run. */
  function RunAll(qs: seq<Query>, rows: seq<Row>): (seq<Row>, bool)
    decreases |qs|
  {
    if qs == [] then (rows, false)
    else
      var (after, raised) := ReconcileQuery(qs[0], rows);
      if raised then (after, true) else RunAll(qs[1..], after)
  }

  /** The whole run: the table it leaves, and whether it raised. */
  function ReconcileRun(feed: Feed, rows: seq<Row>): (seq<Row>, bool) {
    RunAll(Queries(feed, rows), rows)
  }

  function Plus(a: Counts, b: Counts): Counts {
    Counts(a.found + b.found, a.resolved + b.resolved, a.unresolved + b.unresolved)
  }

  ghost function RunCounts(qs: seq<Query>, rows: seq<Row>): Counts
    decreases |qs|
  {
    if qs == [] then Counts(0, 0, 0)
    else
      Plus(QueryCounts(qs[0], rows), RunCounts(qs[1..], ReconcileQuery(qs[0], rows).0))
  }

  // ----- queries of one run -----

  /** No order is in the scope of both. */
  predicate Apart(a: Query, b: Query) {
    a.market != b.market || (a.symbol.Some? && b.symbol.Some? && a.symbol != b.symbol)
  }

  /** Two queries of one run: on live markets they write to different accounts under different keys, on paper to one
      account. */
  ghost predicate Together(a: Query, b: Query) {
    && Apart(a, b) && a.live == b.live
    && if a.live then (a.account.Some? ==> a.account != b.account) && forall m, n :: KeyFor(a, m) != KeyFor(b, n)
       else a.account == b.account
  }

  ghost predicate AllTogether(qs: seq<Query>) {
    forall i, j :: 0 <= i < j < |qs| ==> Together(qs[i], qs[j])
  }

  lemma LiveTogether(feed: Feed)
    requires feed.live
    ensures Together(QueryFor(feed, KOREA, None), QueryFor(feed, OVERSEAS, None))
  {
    var a, b := QueryFor(feed, KOREA, None), QueryFor(feed, OVERSEAS, None);
    assert KOREA == "korea_stock" && OVERSEAS == "overseas_stock";
    assert KOREA[0] != OVERSEAS[0];
    forall m, n ensures KeyFor(a, m) != KeyFor(b, n) {
      assert KeyFor(a, m)[6] == KOREA[0] && KeyFor(b, n)[6] == OVERSEAS[0];
    }
  }

  lemma QueriesTogether(feed: Feed, rows: seq<Row>)
    ensures AllTogether(Queries(feed, rows))
  {
    if feed.live {
      hide QueryFor, Together;
      LiveTogether(feed);
    }
  }

  // ----- what a query leaves to the next -----

  /** The table has grown, and of the scope of `q` nothing changed. */
  ghost predicate ScopeKept(q: Query, rows: seq<Row>, after: seq<Row>) {
    && |rows| <= |after|
    && (forall i :: 0 <= i < |rows| ==> SameOrder(rows[i], after[i]))
    && (forall i :: 0 <= i < |rows| && InScope(q, rows[i]) ==> after[i] == rows[i])
    && (forall i :: |rows| <= i < |after| ==> !InScope(q, after[i]))
  }

  lemma QueryKeepsScope(a: Query, b: Query, rows: seq<Row>)
    requires Apart(a, b) && !Raises(a, rows)
    ensures ScopeKept(b, rows, ReconcileQuery(a, rows).0)
  {
    hide ReconcileQuery, Raises, Attempts, Reconciled, Newcomer, KeyFor;
    QueryIs(a, rows);
    SameIds(a, rows);
    if Heard(a, rows) {
      var ns := Attempts(a, rows);
      AttemptedListed(a, rows);
      forall i | 0 <= i < |ns| ensures InScope(a, Newcomers(a, ns)[i]) {
        assert ns[i] in ns;
        NewcomerIs(a, ns[i]);
      }
    }
  }

  lemma AttemptedListed(q: Query, rows: seq<Row>)
    ensures AllListed(q, Attempts(q, rows))
  {
    hide Unknown, AttemptsOf, AllListed;
    UnknownAre(q, rows);
    AttemptsListed(q, rows, Unknown(q, rows));
  }

  lemma {:induction false} SelectSame(q: Query, rows: seq<Row>, after: seq<Row>, ns: seq<string>)
    requires forall n :: Sought(q, rows, n) <==> Sought(q, after, n)
    ensures Select(q, rows, ns) == Select(q, after, ns)
  {
    hide Sought;
    if ns != [] {
      SelectSame(q, rows, after, ns[1..]);
    }
  }

  lemma SeesTheSame(q: Query, rows: seq<Row>, after: seq<Row>)
    requires ScopeKept(q, rows, after)
    ensures Asked(q, after) <==> Asked(q, rows)
    ensures Unknown(q, after) == Unknown(q, rows)
  {
    hide Numbers, Select;
    forall n ensures CarriedOpen(q, after, n) <==> CarriedOpen(q, rows, n) {
    }
    SelectSame(q, rows, after, Numbers(q.listed));
  }

  lemma {:induction false} AttemptsEqual(q: Query, rows: seq<Row>, after: seq<Row>, ns: seq<string>)
    requires forall n :: KeyKnown(after, KeyFor(q, n)) <==> KeyKnown(rows, KeyFor(q, n))
    requires forall n :: Taken(after, q.account, n) <==> Taken(rows, q.account, n)
    ensures AttemptsOf(q, after, ns) == AttemptsOf(q, rows, ns)
  {
    hide KeyFor, KeyKnown, Taken, Origin;
    if ns != [] {
      AttemptsEqual(q, rows, after, ns[..|ns| - 1]);
    }
  }

  lemma PassAdds(q: Query, rows: seq<Row>, ns: seq<string>)
    requires AllListed(q, ns)
    ensures var after := Pass(q, rows) + Newcomers(q, ns);
            && (forall n :: KeyKnown(after, KeyFor(q, n)) <==> KeyKnown(rows, KeyFor(q, n)) || n in ns)
            && (forall account, n :: Taken(after, account, n)
                  <==> Taken(rows, account, n) || (account.Some? && account == q.account && n in ns))
  {
    hide Pass, Newcomers, KeyKnown, Taken, KeyFor, AllListed;
    SameIds(q, rows);
    NewcomersAdd(q, Pass(q, rows), ns);
  }

  /** On live markets a query does not change what the other one tries. */
  lemma LiveApart(a: Query, b: Query, rows: seq<Row>)
    requires Together(a, b) && a.live && !Raises(a, rows)
    ensures forall ns :: AttemptsOf(b, ReconcileQuery(a, rows).0, ns) == AttemptsOf(b, rows, ns)
    ensures forall n :: Taken(ReconcileQuery(a, rows).0, b.account, n) <==> Taken(rows, b.account, n)
  {
    hide ReconcileQuery, Raises, Attempts, Pass, Newcomers, KeyFor, KeyKnown, Taken, AttemptsOf, AllListed;
    QueryIs(a, rows);
    if Heard(a, rows) {
      var ns := Attempts(a, rows);
      AttemptedListed(a, rows);
      SameIds(a, rows);
      PassAdds(a, rows, ns);
      Joined(Pass(a, rows), Newcomers(a, ns));
      forall n ensures !KeyKnown(Newcomers(a, ns), KeyFor(b, n)) {
        NoOtherKey(a, ns, KeyFor(b, n));
      }
    }
    forall ns ensures AttemptsOf(b, ReconcileQuery(a, rows).0, ns) == AttemptsOf(b, rows, ns) {
      AttemptsEqual(b, rows, ReconcileQuery(a, rows).0, ns);
    }
  }

  lemma NoOtherKey(q: Query, ns: seq<string>, key: string)
    requires AllListed(q, ns) && forall n :: KeyFor(q, n) != key
    ensures !KeyKnown(Newcomers(q, ns), key)
  {
    hide Newcomer, KeyFor, Matching;
    forall i | 0 <= i < |ns| ensures Newcomers(q, ns)[i].key != key {
      assert ns[i] in ns;
      NewcomerIs(q, ns[i]);
    }
  }

  /** On paper a number that two symbols list is registered once, by the first. */
  lemma PaperClash(a: Query, b: Query, rows: seq<Row>)
    requires Together(a, b) && !a.live && !Raises(a, rows)
    ensures Raises(b, ReconcileQuery(a, rows).0) <==> Raises(b, rows)
  {
    hide ReconcileQuery, Pass, Newcomers, AttemptsOf, KeyKnown, Taken, AllListed, Unknown, Asked;
    var after := ReconcileQuery(a, rows).0;
    QueryIs(a, rows);
    QueryKeepsScope(a, b, rows);
    SeesTheSame(b, rows, after);
    AttemptsAre(b, rows, Unknown(b, rows));
    AttemptsAre(b, after, Unknown(b, rows));
    if Heard(a, rows) {
      var ns := Attempts(a, rows);
      AttemptedListed(a, rows);
      PassAdds(a, rows, ns);
      assert forall n :: KeyFor(a, n) == KeyFor(b, n);
    }
  }

  lemma LaterRaises(a: Query, b: Query, rows: seq<Row>)
    requires Together(a, b) && !Raises(a, rows)
    ensures Raises(b, ReconcileQuery(a, rows).0) <==> Raises(b, rows)
  {
    hide ReconcileQuery, AttemptsOf, Taken, Unknown, Asked, KeyFor;
    if a.live {
      LiveApart(a, b, rows);
      QueryKeepsScope(a, b, rows);
      SeesTheSame(b, rows, ReconcileQuery(a, rows).0);
    } else {
      PaperClash(a, b, rows);
    }
  }

  // ----- when a run raises -----

  ghost predicate SomeRaises(qs: seq<Query>, rows: seq<Row>) {
    exists i :: 0 <= i < |qs| && Raises(qs[i], rows)
  }

  lemma Others(qs: seq<Query>)
    requires qs != [] && AllTogether(qs)
    ensures AllTogether(qs[1..]) && forall i :: 0 <= i < |qs| - 1 ==> Together(qs[0], qs[1..][i])
  {
    hide Together;
  }

  lemma {:induction false} RunRaisesIff(qs: seq<Query>, rows: seq<Row>)
    requires AllTogether(qs)
    ensures RunAll(qs, rows).1 <==> SomeRaises(qs, rows)
    decreases |qs|
  {
    hide ReconcileQuery, Raises, Together;
    if qs != [] {
      QueryIs(qs[0], rows);
      if !Raises(qs[0], rows) {
        Others(qs);
        var after := ReconcileQuery(qs[0], rows).0;
        RunRaisesIff(qs[1..], after);
        forall i | 0 <= i < |qs| - 1 ensures Raises(qs[1..][i], after) <==> Raises(qs[i + 1], rows) {
          LaterRaises(qs[0], qs[1..][i], rows);
        }
        assert forall i :: 0 < i < |qs| ==> qs[i] == qs[1..][i - 1];
      }
    }
  }

  /** A run raises if and only if one of its queries does on the table the run starts from. */
  lemma RaisesIff(feed: Feed, rows: seq<Row>)
    ensures ReconcileRun(feed, rows).1 <==> exists q :: q in Queries(feed, rows) && Raises(q, rows)
  {
    hide RunAll, Queries, Raises;
    QueriesTogether(feed, rows);
    RunRaisesIff(Queries(feed, rows), rows);
  }

  /** With no open paper order, the paper run asks nothing, registers nothing and cannot raise. */
  lemma NothingOpenNothingAsked(feed: Feed, rows: seq<Row>)
    requires !feed.live
    requires forall i :: 0 <= i < |rows| ==>
               Terminal(rows[i].status) || !rows[i].relation.New? || rows[i].market != "overseas_futureoption"
    ensures ReconcileRun(feed, rows) == (rows, false)
  {
    assert OpenSymbols(rows, 0) == [];
  }
}
