/** What the broker sends about an order, and the fills read from it (server/app/orders/fill_tracker.py,
    `tc3_to_fill` of server/app/adapters/realtime_future.py). */
module BrokerReports {
  import opened OrderLedger
  import opened OrderStates
  import opened Wrappers

  /** A row of the open-order query; `orgNo` is the number of the order it amends. */
  datatype BrokerRow = BrokerRow(
    ordNo: string, orgNo: Option<string>, symbol: string, execNo: Option<string>, qty: int, price: Option<real>,
    execQty: real, execPrice: Option<real>, remaining: Option<real>)

  /** An execution message of the realtime stream, its text fields already trimmed and its numbers parsed. */
  datatype Tc3 = Tc3(ordrNo: string, cclsNo: string, cclsQ: real, cclsPrc: real)

  function OpenOrderToFill(r: BrokerRow): Option<Fill> {
    if r.execQty <= 0.0 then None
    else Some(Fill("recon:" + OrElse(r.execNo, r.ordNo), r.execQty, r.execPrice.GetOr(0.0), r.remaining))
  }

  function Tc3ToFill(m: Tc3): Option<Fill> {
    if m.ordrNo == "" || m.cclsQ <= 0.0 then None
    else Some(Fill("tc:" + OrElse(Some(m.cclsNo), m.ordrNo), m.cclsQ, m.cclsPrc, None))
  }

  /** The fills of a list of rows, in the order of the rows. */
  function FillsOf(rows: seq<BrokerRow>): (fills: seq<Fill>)
    ensures Positive(fills)
  {
    if rows == [] then []
    else
      var first := OpenOrderToFill(rows[0]);
      (if first.Some? then [first.value] else []) + FillsOf(rows[1..])
  }

  function Matching(rows: seq<BrokerRow>, ordNo: string): (found: seq<BrokerRow>)
    ensures forall r <- found :: r in rows && r.ordNo == ordNo
    ensures found == [] <==> forall r <- rows :: r.ordNo != ordNo
  {
    if rows == [] then []
    else (if rows[0].ordNo == ordNo then [rows[0]] else []) + Matching(rows[1..], ordNo)
  }

  // ----- what the fills carry -----

  /** The row names its execution. */
  predicate Numbered(r: BrokerRow) {
    r.execNo.Some? && r.execNo.value != ""
  }

  /** The rows report one execution: the same execution number, or the same order number where both give none; a row
      without one is also taken for the execution that bears its order's number. */
  predicate SameExecution(r: BrokerRow, s: BrokerRow) {
    if Numbered(r) && Numbered(s) then r.execNo.value == s.execNo.value
    else if Numbered(r) then r.execNo.value == s.ordNo
    else if Numbered(s) then s.execNo.value == r.ordNo
    else r.ordNo == s.ordNo
  }

  /** `f` is the execution the row reports. */
  predicate Reports(r: BrokerRow, f: Fill) {
    && r.execQty > 0.0 && f.qty == r.execQty && f.remaining == r.remaining
    && f.price == (if r.execPrice.Some? then r.execPrice.value else 0.0)
  }

  lemma RowFill(r: BrokerRow)
    ensures OpenOrderToFill(r).Some? <==> r.execQty > 0.0
    ensures OpenOrderToFill(r).Some? ==> Reports(r, OpenOrderToFill(r).value)
  {
  }

  /** Two rows with an execution get the same event key if and only if they report one execution. */
  lemma SameEventIff(r: BrokerRow, s: BrokerRow)
    requires r.execQty > 0.0 && s.execQty > 0.0
    ensures OpenOrderToFill(r).value.eventSeq == OpenOrderToFill(s).value.eventSeq <==> SameExecution(r, s)
  {
    var x, y := OpenOrderToFill(r).value.eventSeq, OpenOrderToFill(s).value.eventSeq;
    assert x[6..] == OrElse(r.execNo, r.ordNo) && y[6..] == OrElse(s.execNo, s.ordNo);
  }

  /** No two rows report one execution. */
  ghost predicate DistinctExecutions(rows: seq<BrokerRow>) {
    forall i, j :: 0 <= i < j < |rows| && rows[i].execQty > 0.0 && rows[j].execQty > 0.0
                   ==> !SameExecution(rows[i], rows[j])
  }

  lemma {:induction false} EventOfRows(rows: seq<BrokerRow>, r: BrokerRow)
    requires r.execQty > 0.0
    ensures HasEvent(FillsOf(rows), OpenOrderToFill(r).value.eventSeq)
       <==> exists j :: 0 <= j < |rows| && rows[j].execQty > 0.0 && SameExecution(r, rows[j])
  {
    hide OpenOrderToFill, SameExecution;
    if rows != [] {
      RowFill(rows[0]);
      RowFill(r);
      var rest, key := rows[1..], OpenOrderToFill(r).value.eventSeq;
      EventOfRows(rest, r);
      if rows[0].execQty > 0.0 {
        SameEventIff(r, rows[0]);
        EventOfFront(OpenOrderToFill(rows[0]).value, FillsOf(rest), key);
        assert FillsOf(rows) == [OpenOrderToFill(rows[0]).value] + FillsOf(rest);
      } else {
        assert FillsOf(rows) == FillsOf(rest);
      }
      assert forall j :: 0 < j < |rows| ==> rows[j] == rest[j - 1];
    }
  }

  lemma EventOfFront(f: Fill, fills: seq<Fill>, key: string)
    ensures HasEvent([f] + fills, key) <==> f.eventSeq == key || HasEvent(fills, key)
  {
    var all := [f] + fills;
    assert all[0] == f && forall i :: 0 < i < |all| ==> all[i] == fills[i - 1];
    if HasEvent(fills, key) {
      var i :| 0 <= i < |fills| && fills[i].eventSeq == key;
      assert all[i + 1].eventSeq == key;
    }
  }

  lemma DistinctFront(f: Fill, fills: seq<Fill>)
    ensures DistinctEvents([f] + fills) <==> DistinctEvents(fills) && !HasEvent(fills, f.eventSeq)
  {
    var all := [f] + fills;
    assert all[0] == f && forall i :: 0 < i < |all| ==> all[i] == fills[i - 1];
    if DistinctEvents(all) {
      forall i, j | 0 <= i < j < |fills| ensures fills[i].eventSeq != fills[j].eventSeq {
        assert all[i + 1].eventSeq != all[j + 1].eventSeq;
      }
      forall i | 0 <= i < |fills| ensures fills[i].eventSeq != f.eventSeq {
        assert all[0].eventSeq != all[i + 1].eventSeq;
      }
    }
  }

  /** The fills of a listing have different event keys if and only if no two of its rows report one execution. */
  lemma {:induction false} DistinctFillsIff(rows: seq<BrokerRow>)
    ensures DistinctEvents(FillsOf(rows)) <==> DistinctExecutions(rows)
  {
    hide OpenOrderToFill, SameExecution, HasEvent;
    if rows != [] {
      var rest := rows[1..];
      DistinctFillsIff(rest);
      DistinctRowsFront(rows);
      RowFill(rows[0]);
      if rows[0].execQty > 0.0 {
        EventOfRows(rest, rows[0]);
        DistinctFront(OpenOrderToFill(rows[0]).value, FillsOf(rest));
      } else {
        assert FillsOf(rows) == FillsOf(rest);
      }
    }
  }

  lemma DistinctRowsFront(rows: seq<BrokerRow>)
    requires rows != []
    ensures DistinctExecutions(rows)
       <==> && DistinctExecutions(rows[1..])
            && (rows[0].execQty > 0.0 ==>
                  !exists j :: 0 <= j < |rows[1..]| && rows[1..][j].execQty > 0.0 && SameExecution(rows[0], rows[1..][j]))
  {
    hide SameExecution;
    var rest := rows[1..];
    assert forall i :: 0 < i < |rows| ==> rows[i] == rest[i - 1];
    assert forall i :: 0 <= i < |rest| ==> rest[i] == rows[i + 1];
  }

  /** What a listing says was executed, and what it cost. */
  function Executed(rows: seq<BrokerRow>): real {
    if rows == [] then 0.0
    else Executed(rows[..|rows| - 1]) + if rows[|rows| - 1].execQty > 0.0 then rows[|rows| - 1].execQty else 0.0
  }

  function Paid(rows: seq<BrokerRow>): real {
    if rows == [] then 0.0
    else
      var last := rows[|rows| - 1];
      Paid(rows[..|rows| - 1])
      + if last.execQty > 0.0 && last.execPrice.Some? then last.execQty * last.execPrice.value else 0.0
  }

  lemma {:induction false} FillsOfSnoc(rows: seq<BrokerRow>, r: BrokerRow)
    ensures FillsOf(rows + [r])
         == FillsOf(rows) + if OpenOrderToFill(r).Some? then [OpenOrderToFill(r).value] else []
  {
    hide OpenOrderToFill, Positive;
    if rows == [] {
      assert [] + [r] == [r] && [r][1..] == [];
    } else {
      FillsOfSnoc(rows[1..], r);
      assert (rows + [r])[1..] == rows[1..] + [r] && (rows + [r])[0] == rows[0];
      var first := OpenOrderToFill(rows[0]);
      assert FillsOf(rows) == (if first.Some? then [first.value] else []) + FillsOf(rows[1..]);
    }
  }

  lemma SumsSnoc(fills: seq<Fill>, f: Fill)
    ensures SumQty(fills + [f]) == SumQty(fills) + f.qty && SumValue(fills + [f]) == SumValue(fills) + Value(f)
  {
    hide Value;
    assert (fills + [f])[..|fills|] == fills;
  }

  /** The fills of a listing add up to what it says was executed, in quantity and in money. */
  lemma {:induction false} FillsAddUp(rows: seq<BrokerRow>)
    ensures SumQty(FillsOf(rows)) == Executed(rows) && SumValue(FillsOf(rows)) == Paid(rows)
  {
    hide OpenOrderToFill, Reports, FillsOf, SumQty, SumValue, Value;
    if rows == [] {
      NoFills();
    } else {
      var rest, r := rows[..|rows| - 1], rows[|rows| - 1];
      assert rows == rest + [r];
      FillsAddUp(rest);
      FillsOfSnoc(rest, r);
      RowFill(r);
      if r.execQty > 0.0 {
        var f := OpenOrderToFill(r).value;
        SumsSnoc(FillsOf(rest), f);
        ValueOfRow(r, f);
      } else {
        assert FillsOf(rest) + [] == FillsOf(rest);
      }
    }
  }

  lemma NoFills()
    ensures FillsOf([]) == [] && SumQty([]) == 0.0 && SumValue([]) == 0.0
  {
  }

  /** The last fill of a listing carries what its last row with an execution says. */
  lemma LastReport(rows: seq<BrokerRow>)
    requires rows != [] && rows[|rows| - 1].execQty > 0.0
    ensures FillsOf(rows) != [] && Reports(rows[|rows| - 1], FillsOf(rows)[|FillsOf(rows)| - 1])
  {
    hide OpenOrderToFill, FillsOf;
    var rest, r := rows[..|rows| - 1], rows[|rows| - 1];
    assert rows == rest + [r];
    FillsOfSnoc(rest, r);
    RowFill(r);
  }

  lemma ValueOfRow(r: BrokerRow, f: Fill)
    requires Reports(r, f)
    ensures f.qty == r.execQty
    ensures Value(f) == if r.execPrice.Some? then r.execQty * r.execPrice.value else 0.0
  {
  }

  /** A message of the stream becomes a fill if it names an order and an execution of positive size; the fill has that
      size and price and says nothing about the rest. Two such messages get one event key if and only if they name one
      execution, or one order where they name none. */
  lemma StreamedFill(m: Tc3, other: Tc3)
    ensures Tc3ToFill(m).Some? <==> m.ordrNo != "" && m.cclsQ > 0.0
    ensures Tc3ToFill(m).Some? ==>
              var f := Tc3ToFill(m).value; f.qty == m.cclsQ && f.price == m.cclsPrc && f.remaining.None?
    ensures Tc3ToFill(m).Some? && Tc3ToFill(other).Some? ==>
              (Tc3ToFill(m).value.eventSeq == Tc3ToFill(other).value.eventSeq
               <==> (if m.cclsNo != "" then m.cclsNo else m.ordrNo)
                    == if other.cclsNo != "" then other.cclsNo else other.ordrNo)
  {
    if Tc3ToFill(m).Some? && Tc3ToFill(other).Some? {
      var x, y := Tc3ToFill(m).value.eventSeq, Tc3ToFill(other).value.eventSeq;
      assert x[3..] == OrElse(Some(m.cclsNo), m.ordrNo) && y[3..] == OrElse(Some(other.cclsNo), other.ordrNo);
    }
  }

  /** The two sources never name the same event, so the event key cannot tell that both report one execution. */
  lemma OriginsNeverCollide(r: BrokerRow, m: Tc3)
    requires OpenOrderToFill(r).Some? && Tc3ToFill(m).Some?
    ensures OpenOrderToFill(r).value.eventSeq != Tc3ToFill(m).value.eventSeq
  {
    assert OpenOrderToFill(r).value.eventSeq[0] == 'r';
    assert Tc3ToFill(m).value.eventSeq[0] == 't';
  }

  /** An execution reported by both sources is booked twice, whatever the reports say, unless the first report closes
      the order. */
  lemma BothOriginsCountTwice(row: Row, r: BrokerRow, m: Tc3)
    requires RowInv(row) && Working(row.status)
    requires OpenOrderToFill(r).Some? && Tc3ToFill(m).Some?
    requires !HasEvent(row.fills, OpenOrderToFill(r).value.eventSeq)
    requires !HasEvent(row.fills, Tc3ToFill(m).value.eventSeq)
    ensures var once := ApplyFill(row, OpenOrderToFill(r).value);
            var twice := ApplyFill(once, Tc3ToFill(m).value);
            && once.filledQty == row.filledQty + r.execQty
            && twice.filledQty == once.filledQty + if Terminal(once.status) then 0.0 else m.cclsQ
  {
    hide SumQty, SumValue, ApplyFill, HasEvent, RowInv;
    OriginsNeverCollide(r, m);
    var f, g := OpenOrderToFill(r).value, Tc3ToFill(m).value;
    StoresOne(row, f);
    var once := ApplyFill(row, f);
    OnlyThatEvent(row.fills, f, g.eventSeq);
    if Terminal(once.status) {
      AfterTerminal(once, g);
    } else {
      ApplyFillKeeps(row, f);
      StoresOne(once, g);
    }
  }

  lemma StoresOne(row: Row, f: Fill)
    requires RowInv(row) && !Terminal(row.status) && !HasEvent(row.fills, f.eventSeq)
    ensures ApplyFill(row, f).filledQty == row.filledQty + f.qty && ApplyFill(row, f).fills == row.fills + [f]
  {
    hide SumValue, Remaining, Chain, HasEvent, DistinctEvents, Positive;
    assert (row.fills + [f])[..|row.fills|] == row.fills;
  }

  lemma OnlyThatEvent(fills: seq<Fill>, f: Fill, eventSeq: string)
    requires !HasEvent(fills, eventSeq) && f.eventSeq != eventSeq
    ensures !HasEvent(fills + [f], eventSeq)
  {
  }
}
