/** One query of a reconciliation (`_reconcile_paper` and `_reconcile_live` of server/app/services/order_service.py):
    the known orders first, then every listed number that no open order carries. */
module MarketReconcile {
  import opened BrokerReports
  import opened OrderEdits
  import opened OrderLedger
  import opened OrderReconcile
  import opened OrderRuns
  import opened OrdersDb
  import opened OrderStates
  import opened Wrappers

  /** A query for the open orders of a market or, on paper, of one of its symbols; `answered` says whether the broker
      answers, `listed` what it then lists. */
  datatype Query = Query(account: Option<nat>, market: string, symbol: Option<string>, live: bool, closing: bool,
                         answered: bool, listed: seq<BrokerRow>)

  // ----- the known orders -----

  predicate InScope(q: Query, row: Row) {
    row.market == q.market && (q.symbol.Some? ==> row.symbol == q.symbol.value)
  }

  predicate Open(row: Row) {
    !Terminal(row.status) && row.relation.New?
  }

  predicate OpenIn(q: Query, row: Row) {
    Open(row) && InScope(q, row)
  }

  /** Live markets are always asked about, a paper symbol only because of its open orders. */
  predicate Asked(q: Query, rows: seq<Row>) {
    q.live || exists i :: 0 <= i < |rows| && OpenIn(q, rows[i])
  }

  predicate Heard(q: Query, rows: seq<Row>) {
    Asked(q, rows) && q.answered
  }

  function ReconciledIn(q: Query, row: Row): Row {
    if InScope(q, row) then Reconciled(row, q.listed, q.live, q.closing) else row
  }

  /** The orders a query knows, reconciled. */
  function Pass(q: Query, rows: seq<Row>): seq<Row> {
    seq(|rows|, i requires 0 <= i < |rows| => ReconciledIn(q, rows[i]))
  }

  /** The same order, later: what identifies it is unchanged, and if it was closed nothing changed. */
  ghost predicate SameOrder(row: Row, d: Row) {
    && d.key == row.key && d.account == row.account && d.brokerId == row.brokerId
    && d.market == row.market && d.symbol == row.symbol && d.relation == row.relation
    && (!Open(row) ==> d == row)
  }

  lemma ReconciledSame(q: Query, row: Row)
    ensures SameOrder(row, ReconciledIn(q, row))
  {
    hide Deliver, FillsOf, Matching;
    if HasOrdNo(row) {
      DeliverKeeps(row, FillsOf(Matching(q.listed, row.brokerId.value)));
    }
  }

  lemma ReconciledInTwice(q: Query, row: Row)
    requires row.status.Accepted? ==> row.fills == []
    ensures ReconciledIn(q, ReconciledIn(q, row)) == ReconciledIn(q, row)
  {
    hide Reconciled;
    ReconcileTwice(row, q.listed, q.live, q.closing);
    ReconciledSame(q, row);
  }

  /** A second pass over the known orders with the same listing changes none of them. */
  lemma PassTwice(q: Query, rows: seq<Row>)
    requires forall i :: 0 <= i < |rows| ==> RowInv(rows[i])
    ensures Pass(q, Pass(q, rows)) == Pass(q, rows)
  {
    hide ReconciledIn;
    forall i | 0 <= i < |rows| ensures ReconciledIn(q, ReconciledIn(q, rows[i])) == ReconciledIn(q, rows[i]) {
      assert RowInv(rows[i]);
      ReconciledInTwice(q, rows[i]);
    }
  }

  // ----- the unknown numbers -----

  predicate CarriedOpen(q: Query, rows: seq<Row>, ordNo: string) {
    exists i :: 0 <= i < |rows| && OpenIn(q, rows[i]) && rows[i].brokerId == Some(ordNo)
  }

  /** The listed numbers, in order of first appearance. */
  function Numbers(listed: seq<BrokerRow>): seq<string> {
    if listed == [] then []
    else
      var before := Numbers(listed[..|listed| - 1]);
      if listed[|listed| - 1].ordNo in before then before else before + [listed[|listed| - 1].ordNo]
  }

  /** No open order carries the number; live rows need one, and an account to belong to. */
  predicate Sought(q: Query, rows: seq<Row>, ordNo: string) {
    !CarriedOpen(q, rows, ordNo) && (q.live ==> ordNo != "" && q.account.Some?)
  }

  function Select(q: Query, rows: seq<Row>, numbers: seq<string>): (r: seq<string>)
    ensures forall n :: n in r <==> n in numbers && Sought(q, rows, n)
  {
    if numbers == [] then []
    else (if Sought(q, rows, numbers[0]) then [numbers[0]] else []) + Select(q, rows, numbers[1..])
  }

  /** The numbers a query that finds `rows` looks into. */
  function Unknown(q: Query, rows: seq<Row>): seq<string> {
    Select(q, rows, Numbers(q.listed))
  }

  /** The order a registration inserts, and what it is once its executions are applied. */
  function NewcomerRow(q: Query, ordNo: string): Row {
    var group := Matching(q.listed, ordNo);
    if group == [] then NewRow("", None, "", "", New, 0.0, None, Accepted, None)
    else OrphanRow(q.account, q.market, q.symbol.GetOr(group[0].symbol), q.live, group[0])
  }

  function Newcomer(q: Query, ordNo: string): Row {
    Deliver(NewcomerRow(q, ordNo), FillsOf(Matching(q.listed, ordNo)))
  }

  /** The number of the order that a listed one amends. */
  function Origin(q: Query, ordNo: string): string {
    var group := Matching(q.listed, ordNo);
    if group == [] then "" else group[0].orgNo.GetOr("")
  }

  /** The live search leaves out the successor of an order the account has. */
  predicate Follows(q: Query, rows: seq<Row>, ordNo: string) {
    q.live && q.account.Some? && Origin(q, ordNo) != "" && ByBroker(rows, q.account.value, Origin(q, ordNo)).Some?
  }

  /** One registration; the flag says that it raised. */
  function Register(q: Query, rows: seq<Row>, ordNo: string): (seq<Row>, bool) {
    var res := Insert(rows, NewcomerRow(q, ordNo)).1;
    (if res.Created? then rows + [Newcomer(q, ordNo)] else rows, res.Raised?)
  }

  function RegisterAll(q: Query, rows: seq<Row>, numbers: seq<string>): (seq<Row>, bool)
    decreases |numbers|
  {
    if numbers == [] then (rows, false)
    else
      var (after, raised) := RegisterAll(q, rows, numbers[..|numbers| - 1]);
      if raised || Follows(q, after, numbers[|numbers| - 1]) then (after, raised)
      else Register(q, after, numbers[|numbers| - 1])
  }

  /** The whole query: the table it leaves, and whether it raised; a live market that does not answer is left out. */
  function ReconcileQuery(q: Query, rows: seq<Row>): (seq<Row>, bool) {
    if !Asked(q, rows) then (rows, false)
    else if !q.answered then (rows, !q.live)
    else RegisterAll(q, Pass(q, rows), Unknown(q, rows))
  }

  // ----- numbers and keys -----

  function KeyFor(q: Query, ordNo: string): string {
    if q.live then "recon:" + q.market + ":" + ordNo else "recon:" + ordNo
  }

  ghost predicate KeyKnown(rows: seq<Row>, key: string) {
    exists i :: 0 <= i < |rows| && rows[i].key == key
  }

  /** The account has an order with this number, open or not. */
  ghost predicate Taken(rows: seq<Row>, account: Option<nat>, ordNo: string) {
    account.Some? && exists i :: 0 <= i < |rows| && rows[i].account == account && rows[i].brokerId == Some(ordNo)
  }

  ghost predicate DistinctNumbers(ns: seq<string>) {
    forall i, j :: 0 <= i < j < |ns| ==> ns[i] != ns[j]
  }

  ghost predicate AllListed(q: Query, ns: seq<string>) {
    forall n <- ns :: Matching(q.listed, n) != []
  }

  lemma {:induction false} NumbersAre(listed: seq<BrokerRow>)
    ensures DistinctNumbers(Numbers(listed))
    ensures forall n :: n in Numbers(listed) <==> exists r :: r in listed && r.ordNo == n
  {
    if listed != [] {
      var rest, last := listed[..|listed| - 1], listed[|listed| - 1];
      NumbersAre(rest);
      assert listed == rest + [last];
      forall n ensures n in Numbers(listed) <==> exists r :: r in listed && r.ordNo == n {
        if n in Numbers(rest) {
          var r :| r in rest && r.ordNo == n;
          assert r in listed;
        }
        if n == last.ordNo { assert last in listed; }
        if r :| r in listed && r.ordNo == n {
          assert r in rest ==> n in Numbers(rest);
        }
      }
    }
  }

  lemma {:induction false} SelectDistinct(q: Query, rows: seq<Row>, ns: seq<string>)
    requires DistinctNumbers(ns)
    ensures DistinctNumbers(Select(q, rows, ns))
  {
    hide Sought;
    if ns != [] {
      var rest := Select(q, rows, ns[1..]);
      SelectDistinct(q, rows, ns[1..]);
      assert ns[0] !in ns[1..];
      assert ns[0] !in rest;
    }
  }

  lemma UnknownAre(q: Query, rows: seq<Row>)
    ensures DistinctNumbers(Unknown(q, rows)) && AllListed(q, Unknown(q, rows))
    ensures forall n :: n in Unknown(q, rows) <==> (exists r :: r in q.listed && r.ordNo == n) && Sought(q, rows, n)
  {
    hide Sought;
    NumbersAre(q.listed);
    SelectDistinct(q, rows, Numbers(q.listed));
  }

  lemma NewcomerIs(q: Query, ordNo: string)
    requires Matching(q.listed, ordNo) != []
    ensures var row := NewcomerRow(q, ordNo);
            && row.key == KeyFor(q, ordNo) && row.account == q.account && row.brokerId == Some(ordNo)
            && row.status.Accepted? && row.fills == [] && OpenIn(q, row)
    ensures var d := Newcomer(q, ordNo);
            && d.key == KeyFor(q, ordNo) && d.account == q.account && d.brokerId == Some(ordNo)
            && InScope(q, d) && d.relation.New?
  {
    var group := Matching(q.listed, ordNo);
    assert group[0] in group;
    DeliverKeeps(NewcomerRow(q, ordNo), FillsOf(group));
  }

  lemma KeysTellNumbers(q: Query, a: string, b: string)
    ensures KeyFor(q, a) == KeyFor(q, b) <==> a == b
  {
    var n := if q.live then 7 + |q.market| else 6;
    assert KeyFor(q, a)[n..] == a && KeyFor(q, b)[n..] == b;
  }

  // ----- what a query registers -----

  /** The live search finds the origin of `ordNo` among the account's orders or those it registered before. */
  ghost predicate Succeeds(q: Query, rows: seq<Row>, before: seq<string>, ordNo: string) {
    && q.live && q.account.Some? && Origin(q, ordNo) != ""
    && (Taken(rows, q.account, Origin(q, ordNo)) || Origin(q, ordNo) in before)
  }

  /** Those of `ns` that have no registration key and succeed no order: the numbers an insert is attempted for. */
  ghost function AttemptsOf(q: Query, rows: seq<Row>, ns: seq<string>): seq<string> {
    if ns == [] then []
    else
      var before, n := AttemptsOf(q, rows, ns[..|ns| - 1]), ns[|ns| - 1];
      if KeyKnown(rows, KeyFor(q, n)) || Succeeds(q, rows, before, n) then before else before + [n]
  }

  ghost function Attempts(q: Query, rows: seq<Row>): seq<string> {
    AttemptsOf(q, rows, Unknown(q, rows))
  }

  function Newcomers(q: Query, ns: seq<string>): seq<Row> {
    seq(|ns|, i requires 0 <= i < |ns| => Newcomer(q, ns[i]))
  }

  /** Each of `ns` is attempted, or its key is known, or it succeeds an order. */
  lemma {:induction false} AttemptsAre(q: Query, rows: seq<Row>, ns: seq<string>)
    ensures forall n :: n in AttemptsOf(q, rows, ns) ==> n in ns && !KeyKnown(rows, KeyFor(q, n))
    ensures forall n :: n in ns ==>
              || n in AttemptsOf(q, rows, ns) || KeyKnown(rows, KeyFor(q, n))
              || Succeeds(q, rows, AttemptsOf(q, rows, ns), n)
    ensures forall n :: n in AttemptsOf(q, rows, ns) ==> !Succeeds(q, rows, [], n)
    ensures !q.live ==> forall n :: n in AttemptsOf(q, rows, ns) <==> n in ns && !KeyKnown(rows, KeyFor(q, n))
  {
    hide KeyFor, KeyKnown, Taken, Origin;
    if ns != [] {
      AttemptsAre(q, rows, ns[..|ns| - 1]);
      assert ns == ns[..|ns| - 1] + [ns[|ns| - 1]];
    }
  }

  lemma {:induction false} AttemptsListed(q: Query, rows: seq<Row>, ns: seq<string>)
    requires DistinctNumbers(ns) && AllListed(q, ns)
    ensures DistinctNumbers(AttemptsOf(q, rows, ns)) && AllListed(q, AttemptsOf(q, rows, ns))
  {
    hide KeyFor, KeyKnown, Succeeds;
    AttemptsAre(q, rows, ns);
    if ns != [] {
      var n := |ns| - 1;
      assert AllListed(q, ns[..n]);
      AttemptsListed(q, rows, ns[..n]);
      AttemptsAre(q, rows, ns[..n]);
    }
  }

  lemma Joined(rows: seq<Row>, more: seq<Row>)
    ensures forall key :: KeyKnown(rows + more, key) <==> KeyKnown(rows, key) || KeyKnown(more, key)
    ensures forall account, n :: Taken(rows + more, account, n) <==> Taken(rows, account, n) || Taken(more, account, n)
  {
    var all := rows + more;
    assert forall i :: 0 <= i < |rows| ==> all[i] == rows[i];
    assert forall i :: 0 <= i < |more| ==> all[|rows| + i] == more[i];
  }

  lemma NewcomersCarry(q: Query, ns: seq<string>)
    requires AllListed(q, ns)
    ensures forall n :: KeyKnown(Newcomers(q, ns), KeyFor(q, n)) <==> n in ns
    ensures forall account, n :: Taken(Newcomers(q, ns), account, n)
              <==> account.Some? && account == q.account && n in ns
  {
    hide Newcomer, KeyFor, Matching;
    var more := Newcomers(q, ns);
    forall i | 0 <= i < |ns|
      ensures more[i].key == KeyFor(q, ns[i]) && more[i].account == q.account && more[i].brokerId == Some(ns[i])
    {
      assert ns[i] in ns;
      NewcomerIs(q, ns[i]);
    }
    forall n ensures KeyKnown(more, KeyFor(q, n)) <==> n in ns {
      if KeyKnown(more, KeyFor(q, n)) {
        var i :| 0 <= i < |more| && more[i].key == KeyFor(q, n);
        KeysTellNumbers(q, ns[i], n);
      }
    }
  }

  /** The keys and numbers of a table with newcomers. */
  lemma NewcomersAdd(q: Query, rows: seq<Row>, ns: seq<string>)
    requires AllListed(q, ns)
    ensures forall n :: KeyKnown(rows + Newcomers(q, ns), KeyFor(q, n)) <==> KeyKnown(rows, KeyFor(q, n)) || n in ns
    ensures forall account, n :: Taken(rows + Newcomers(q, ns), account, n)
              <==> Taken(rows, account, n) || (account.Some? && account == q.account && n in ns)
  {
    hide Newcomers, KeyFor, KeyKnown, Taken;
    Joined(rows, Newcomers(q, ns));
    NewcomersCarry(q, ns);
  }

  // ----- when a query raises -----

  /** An insert raises: its number is taken in the account. */
  ghost predicate Clashes(q: Query, rows: seq<Row>, ns: seq<string>) {
    exists n :: n in ns && Taken(rows, q.account, n)
  }

  lemma KeyIsKnown(rows: seq<Row>, key: string)
    ensures WithKey(rows, key).Some? <==> KeyKnown(rows, key)
  {
  }

  lemma RegisterIs(q: Query, rows: seq<Row>, ordNo: string)
    requires Matching(q.listed, ordNo) != []
    ensures var (after, raised) := Register(q, rows, ordNo);
            if KeyKnown(rows, KeyFor(q, ordNo)) then !raised && after == rows
            else (raised <==> Taken(rows, q.account, ordNo)) && (!raised ==> after == rows + [Newcomer(q, ordNo)])
  {
    hide Newcomer, Matching;
    NewcomerIs(q, ordNo);
    var row := NewcomerRow(q, ordNo);
    KeyIsKnown(rows, row.key);
    RegistrationRaises(rows, row);
  }

  lemma FollowsIs(q: Query, rows: seq<Row>, ordNo: string)
    ensures Follows(q, rows, ordNo) <==> Succeeds(q, rows, [], ordNo)
  {
    if q.account.Some? {
      var found := ByBroker(rows, q.account.value, Origin(q, ordNo));
      assert found.None? ==> forall i :: 0 <= i < |rows| ==> !NumberedAs(rows[i], q.account.value, Origin(q, ordNo));
    }
  }

  lemma OneMoreNewcomer(q: Query, ns: seq<string>, n: string)
    ensures Newcomers(q, ns + [n]) == Newcomers(q, ns) + [Newcomer(q, n)]
  {
    hide Newcomer;
  }

  /** The next number of a search that did not raise so far. */
  lemma RegisterNext(q: Query, rows: seq<Row>, before: seq<string>, n: string)
    requires AllListed(q, before) && n !in before && Matching(q.listed, n) != []
    ensures var mid := rows + Newcomers(q, before);
            var (after, raised) := if Follows(q, mid, n) then (mid, false) else Register(q, mid, n);
            var done := KeyKnown(rows, KeyFor(q, n)) || Succeeds(q, rows, before, n);
            && (raised <==> !done && Taken(rows, q.account, n))
            && (!raised ==> after == rows + Newcomers(q, if done then before else before + [n]))
  {
    hide Newcomers, Register, Follows, KeyFor, KeyKnown, Taken, Matching, Origin;
    var mid := rows + Newcomers(q, before);
    NewcomersAdd(q, rows, before);
    FollowsIs(q, mid, n);
    RegisterIs(q, mid, n);
    OneMoreNewcomer(q, before, n);
  }

  /** The search raises if and only if an attempted number is taken; otherwise it appends the newcomers. */
  lemma {:induction false} AllRegister(q: Query, rows: seq<Row>, ns: seq<string>)
    requires DistinctNumbers(ns) && AllListed(q, ns)
    ensures var (after, raised) := RegisterAll(q, rows, ns);
            && (raised <==> Clashes(q, rows, AttemptsOf(q, rows, ns)))
            && (!raised ==> after == rows + Newcomers(q, AttemptsOf(q, rows, ns)))
  {
    hide Register, Follows, Newcomers, KeyFor, KeyKnown, Taken, Succeeds, Matching;
    if ns == [] {
      NoNewcomers(q, rows);
    } else {
      var rest, n := ns[..|ns| - 1], ns[|ns| - 1];
      assert AllListed(q, rest);
      AllRegister(q, rows, rest);
      AttemptsListed(q, rows, rest);
      AttemptsAre(q, rows, rest);
      var before := AttemptsOf(q, rows, rest);
      assert n !in before;
      RegisterNext(q, rows, before, n);
    }
  }

  lemma NoNewcomers(q: Query, rows: seq<Row>)
    ensures rows + Newcomers(q, []) == rows
  {
  }

  lemma SameIds(q: Query, rows: seq<Row>)
    ensures |Pass(q, rows)| == |rows|
    ensures forall i :: 0 <= i < |rows| ==> SameOrder(rows[i], Pass(q, rows)[i])
    ensures forall key :: KeyKnown(Pass(q, rows), key) <==> KeyKnown(rows, key)
    ensures forall account, n :: Taken(Pass(q, rows), account, n) <==> Taken(rows, account, n)
  {
    hide ReconciledIn;
    var after := Pass(q, rows);
    forall i | 0 <= i < |rows| ensures SameOrder(rows[i], after[i]) {
      ReconciledSame(q, rows[i]);
    }
  }

  lemma {:induction false} AttemptsSame(q: Query, rows: seq<Row>, ns: seq<string>)
    ensures AttemptsOf(q, Pass(q, rows), ns) == AttemptsOf(q, rows, ns)
  {
    hide Pass, KeyFor, KeyKnown, Taken;
    SameIds(q, rows);
    if ns != [] {
      AttemptsSame(q, rows, ns[..|ns| - 1]);
    }
  }

  /** A paper query that is asked and not answered raises, and so does a clash of a number it registers. */
  ghost predicate Raises(q: Query, rows: seq<Row>) {
    Asked(q, rows) && if q.answered then Clashes(q, rows, Attempts(q, rows)) else !q.live
  }

  /** A query raises exactly then; otherwise it reconciles what it knows and appends the newcomers. */
  lemma QueryIs(q: Query, rows: seq<Row>)
    ensures var (after, raised) := ReconcileQuery(q, rows);
            && (raised <==> Raises(q, rows))
            && (!raised ==> after == if Heard(q, rows) then Pass(q, rows) + Newcomers(q, Attempts(q, rows)) else rows)
  {
    hide Pass, RegisterAll, Unknown, Newcomers, AttemptsOf, Taken;
    if Heard(q, rows) {
      UnknownAre(q, rows);
      AllRegister(q, Pass(q, rows), Unknown(q, rows));
      AttemptsSame(q, rows, Unknown(q, rows));
      SameIds(q, rows);
    }
  }

  /** A paper query raises if and only if an order of its symbol is open and either the broker does not answer or it
      lists a number that no open order of the symbol carries, that has no registration key and that the account has. */
  lemma PaperRaisesIff(q: Query, rows: seq<Row>)
    requires !q.live
    ensures Raises(q, rows) <==>
            && Asked(q, rows)
            && (q.answered ==>
                  exists r :: r in q.listed
                              && !(exists i :: 0 <= i < |rows| && OpenIn(q, rows[i]) && rows[i].brokerId == Some(r.ordNo))
                              && (forall i :: 0 <= i < |rows| ==> rows[i].key != "recon:" + r.ordNo)
                              && q.account.Some?
                              && exists i :: 0 <= i < |rows| && rows[i].account == q.account
                                             && rows[i].brokerId == Some(r.ordNo))
  {
    hide Unknown, KeyFor, AttemptsOf;
    UnknownAre(q, rows);
    AttemptsAre(q, rows, Unknown(q, rows));
    forall n ensures KeyFor(q, n) == "recon:" + n {
      PaperKey(q, n);
    }
  }

  lemma PaperKey(q: Query, n: string)
    requires !q.live
    ensures KeyFor(q, n) == "recon:" + n
  {
  }

  /** A live market that does not answer is left out; without an account it registers nothing. */
  lemma LiveWithoutAccount(q: Query, rows: seq<Row>)
    requires q.live
    ensures !q.answered ==> ReconcileQuery(q, rows) == (rows, false)
    ensures q.answered && q.account.None? ==> ReconcileQuery(q, rows) == (Pass(q, rows), false)
  {
    hide Pass, RegisterAll, Select, Numbers;
    if q.account.None? {
      assert forall n :: !Sought(q, rows, n);
      var ns := Unknown(q, rows);
      assert ns == [] by { NoneSelected(q, rows, Numbers(q.listed)); }
      NothingAdded(q, Pass(q, rows));
    }
  }

  lemma {:induction false} NoneSelected(q: Query, rows: seq<Row>, ns: seq<string>)
    requires forall n :: !Sought(q, rows, n)
    ensures Select(q, rows, ns) == []
  {
    hide Sought;
    if ns != [] {
      NoneSelected(q, rows, ns[1..]);
    }
  }

  lemma NothingAdded(q: Query, rows: seq<Row>)
    ensures RegisterAll(q, rows, []) == (rows, false)
  {
  }

  /** What the live search does with a listed number that no open order carries and that has no registration key: if the
      first row listed under it names no original order, an insert is attempted; if it names one that the account has,
      none is. */
  lemma SuccessorsAreLeftOut(q: Query, rows: seq<Row>, first: BrokerRow)
    requires q.live && q.account.Some? && first.ordNo != ""
    requires Matching(q.listed, first.ordNo) != [] && Matching(q.listed, first.ordNo)[0] == first
    requires !CarriedOpen(q, rows, first.ordNo)
    requires forall i :: 0 <= i < |rows| ==> rows[i].key != "recon:" + q.market + ":" + first.ordNo
    ensures first.orgNo.None? || first.orgNo.value == "" ==> first.ordNo in Attempts(q, rows)
    ensures (first.orgNo.Some? && first.orgNo.value != ""
             && exists i :: 0 <= i < |rows| && rows[i].account == q.account && rows[i].brokerId == first.orgNo)
            ==> first.ordNo !in Attempts(q, rows)
  {
    hide Unknown, AttemptsOf, Matching, CarriedOpen;
    assert first in Matching(q.listed, first.ordNo);
    UnknownAre(q, rows);
    AttemptsAre(q, rows, Unknown(q, rows));
    assert first.ordNo in Unknown(q, rows);
  }

  /** A query changes nothing and does not raise exactly when it is not heard, or finds all known orders as it would
      leave them and attempts no number. */
  lemma QueryIdle(q: Query, rows: seq<Row>)
    ensures ReconcileQuery(q, rows) == (rows, false)
       <==> !Raises(q, rows) && (Heard(q, rows) ==> Pass(q, rows) == rows && Attempts(q, rows) == [])
  {
    hide ReconcileQuery, Raises, Pass, Attempts;
    QueryIs(q, rows);
    SameIds(q, rows);
    NoNewcomers(q, rows);
  }

  // ----- a newcomer meets its query again -----

  /** A newcomer with a number is closed by the next pass exactly when it got no execution and the market closes. */
  lemma NewcomerAgain(q: Query, ordNo: string)
    requires Matching(q.listed, ordNo) != []
    ensures var d := Newcomer(q, ordNo);
            ReconciledIn(q, d) == d <==> !(q.closing && !q.live && d.status.Accepted? && HasOrdNo(d))
  {
    hide Deliver, FillsOf, Saturated, ApplyFill, Matching;
    var row, fills := NewcomerRow(q, ordNo), FillsOf(Matching(q.listed, ordNo));
    NewcomerIs(q, ordNo);
    var d := Newcomer(q, ordNo);
    DeliverSaturates(row, fills);
    SaturatedStays(d, fills);
  }

  // ----- counts -----

  /** What a query counts as a difference it found and resolved: executions on live markets, changed orders on paper. */
  function Difference(q: Query, before: Row, after: Row): nat {
    if q.live then if |after.fills| > |before.fills| then |after.fills| - |before.fills| else 0
    else if after != before then 1 else 0
  }

  /** Over the orders from `from` on. */
  function Differences(q: Query, rows: seq<Row>, from: nat): nat
    requires from <= |rows|
    decreases |rows| - from
  {
    if from == |rows| then 0
    else Difference(q, rows[from], ReconciledIn(q, rows[from])) + Differences(q, rows, from + 1)
  }

  /** The open orders without a number, which no listing can resolve. */
  function Unnumbered(q: Query, rows: seq<Row>, from: nat): nat
    requires from <= |rows|
    decreases |rows| - from
  {
    if from == |rows| then 0
    else (if OpenIn(q, rows[from]) && !HasOrdNo(rows[from]) then 1 else 0) + Unnumbered(q, rows, from + 1)
  }

  /** The numbers that count as found: all but the successors of known orders. */
  ghost function NewFound(q: Query, rows: seq<Row>, ns: seq<string>): nat {
    if ns == [] then 0
    else
      var rest := ns[..|ns| - 1];
      NewFound(q, rows, rest) + if Succeeds(q, rows, AttemptsOf(q, rows, rest), ns[|ns| - 1]) then 0 else 1
  }

  function FillsIn(rows: seq<Row>, from: nat): nat
    requires from <= |rows|
    decreases |rows| - from
  {
    if from == |rows| then 0 else |rows[from].fills| + FillsIn(rows, from + 1)
  }

  ghost function Changed(q: Query, rows: seq<Row>, from: nat): set<nat> {
    set i: nat | from <= i < |rows| && ReconciledIn(q, rows[i]) != rows[i]
  }

  ghost function Numberless(q: Query, rows: seq<Row>, from: nat): set<nat> {
    set i: nat | from <= i < |rows| && OpenIn(q, rows[i]) && (rows[i].brokerId.None? || rows[i].brokerId.value == "")
  }

  lemma {:induction false} LiveDifferences(q: Query, rows: seq<Row>, from: nat)
    requires from <= |rows| && q.live
    ensures Differences(q, rows, from) == FillsIn(Pass(q, rows), from) - FillsIn(rows, from)
    decreases |rows| - from
  {
    hide ReconciledIn;
    if from < |rows| {
      LiveDifferences(q, rows, from + 1);
      FillsGrow(q, rows[from]);
    }
  }

  lemma {:induction false} PaperDifferences(q: Query, rows: seq<Row>, from: nat)
    requires from <= |rows| && !q.live
    ensures Differences(q, rows, from) == |Changed(q, rows, from)|
    decreases |rows| - from
  {
    hide ReconciledIn;
    if from < |rows| {
      PaperDifferences(q, rows, from + 1);
      assert Changed(q, rows, from) == Changed(q, rows, from + 1)
             + if ReconciledIn(q, rows[from]) != rows[from] then {from} else {};
    }
  }

  lemma {:induction false} UnnumberedAre(q: Query, rows: seq<Row>, from: nat)
    requires from <= |rows|
    ensures Unnumbered(q, rows, from) == |Numberless(q, rows, from)|
    decreases |rows| - from
  {
    hide OpenIn;
    if from < |rows| {
      UnnumberedAre(q, rows, from + 1);
      assert Numberless(q, rows, from) == Numberless(q, rows, from + 1)
             + if OpenIn(q, rows[from]) && !HasOrdNo(rows[from]) then {from} else {};
    }
  }

  /** What is counted: on live markets the executions newly stored, on paper the orders changed; and the open orders
      without a number. */
  lemma DifferencesAre(q: Query, rows: seq<Row>)
    ensures q.live ==> Differences(q, rows, 0) == FillsIn(Pass(q, rows), 0) - FillsIn(rows, 0)
    ensures !q.live ==> Differences(q, rows, 0) == |Changed(q, rows, 0)|
    ensures Unnumbered(q, rows, 0) == |Numberless(q, rows, 0)|
  {
    if q.live {
      LiveDifferences(q, rows, 0);
    } else {
      PaperDifferences(q, rows, 0);
    }
    UnnumberedAre(q, rows, 0);
  }

  lemma FillsGrow(q: Query, row: Row)
    ensures |ReconciledIn(q, row).fills| >= |row.fills|
  {
    hide Deliver, FillsOf, Matching;
    if HasOrdNo(row) {
      DeliverKeeps(row, FillsOf(Matching(q.listed, row.brokerId.value)));
    }
  }

  /** On paper every unknown number counts as found. */
  lemma {:induction false} AllFoundOnPaper(q: Query, rows: seq<Row>, ns: seq<string>)
    requires !q.live
    ensures NewFound(q, rows, ns) == |ns|
  {
    hide KeyKnown, Taken, Origin, AttemptsOf;
    if ns != [] {
      AllFoundOnPaper(q, rows, ns[..|ns| - 1]);
    }
  }

  datatype Counts = Counts(found: nat, resolved: nat, unresolved: nat)

  ghost function QueryCounts(q: Query, rows: seq<Row>): Counts {
    if !Heard(q, rows) then Counts(0, 0, 0)
    else
      var differences := Differences(q, rows, 0);
      Counts(differences + NewFound(q, rows, Unknown(q, rows)), differences + |Attempts(q, rows)|,
             Unnumbered(q, rows, 0))
  }
}
