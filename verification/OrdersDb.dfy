/** The `orders` table with its two unique keys, and the committed operations of
    server/app/repositories/orders_repo.py on it. Order ids are positions: rows are never deleted. */
module OrdersDb {
  import opened Wrappers
  import opened OrderStates
  import opened OrderLedger

  /** Two rows that cannot both be stored: one broker order number twice under one account. */
  predicate Clash(a: Row, b: Row) {
    a.account.Some? && a.account == b.account && a.brokerId.Some? && a.brokerId == b.brokerId
  }

  ghost predicate UniqueKeys(rows: seq<Row>) {
    forall i, j :: 0 <= i < j < |rows| ==> rows[i].key != rows[j].key
  }

  ghost predicate UniqueBrokerIds(rows: seq<Row>) {
    forall i, j :: 0 <= i < j < |rows| ==> !Clash(rows[i], rows[j])
  }

  ghost predicate Stored(rows: seq<Row>) {
    UniqueKeys(rows) && UniqueBrokerIds(rows)
  }

  /** The row with idempotency key `key`. */
  function WithKey(rows: seq<Row>, key: string): (r: Option<nat>)
    ensures r.Some? ==> r.value < |rows| && rows[r.value].key == key
    ensures r.None? ==> forall i :: 0 <= i < |rows| ==> rows[i].key != key
  {
    if rows == [] then None
    else if rows[|rows| - 1].key == key then Some(|rows| - 1)
    else WithKey(rows[..|rows| - 1], key)
  }

  /** Whether `row` may stand at position `id` (a new one at |rows|) next to the other rows. */
  predicate Fits(rows: seq<Row>, id: nat, row: Row) {
    forall j :: 0 <= j < |rows| && j != id ==> !Clash(row, rows[j])
  }

  datatype Inserted = Created(id: nat) | Existing(id: nat) | Raised

  /** `insert_order`: on a unique-key conflict the row with that key wins; a conflict on the order number alone is
      raised to the caller. */
  function Insert(rows: seq<Row>, row: Row): (seq<Row>, Inserted) {
    match WithKey(rows, row.key)
    case Some(id) => (rows, Existing(id))
    case None => if Fits(rows, |rows|, row) then (rows + [row], Created(|rows|)) else (rows, Raised)
  }

  datatype Update = Keep | BrokerId(ordNo: Option<string>)

  datatype Moved = Moved(frm: OrderState) | NotFound | Illegal | Conflict

  function WithUpdate(row: Row, update: Update): Row {
    match update
    case Keep => row
    case BrokerId(ordNo) => row.(brokerId := ordNo)
  }

  /** `transition`: check, update and log in one transaction, so an error leaves the table as it was. */
  function Move(rows: seq<Row>, id: nat, to: OrderState, update: Update): (seq<Row>, Moved) {
    if id >= |rows| then (rows, NotFound)
    else
      match Transition(rows[id], to)
      case None => (rows, Illegal)
      case Some(moved) =>
        var row := WithUpdate(moved, update);
        if Fits(rows, id, row) then (rows[id := row], Moved(rows[id].status)) else (rows, Conflict)
  }

  /** `apply_fill`; the flag is its result. */
  function Book(rows: seq<Row>, id: nat, f: Fill): (seq<Row>, bool) {
    if id >= |rows| then (rows, false)
    else (rows[id := ApplyFill(rows[id], f)], !Terminal(rows[id].status) && !HasEvent(rows[id].fills, f.eventSeq))
  }

  /** `update_order_fields` as an amendment uses it; the flag is false when the order number is taken. */
  function Amend(rows: seq<Row>, id: nat, ordNo: Option<string>, qty: real, price: real): (seq<Row>, bool) {
    if id >= |rows| then (rows, true)
    else
      var row := rows[id].(brokerId := ordNo, qty := qty, price := Some(price));
      if Fits(rows, id, row) then (rows[id := row], true) else (rows, false)
  }

  // ----- the keys stay unique -----

  lemma ReplaceStored(rows: seq<Row>, id: nat, row: Row)
    requires Stored(rows) && id < |rows| && row.key == rows[id].key && Fits(rows, id, row)
    ensures Stored(rows[id := row])
  {
  }

  lemma SameIdsFit(rows: seq<Row>, id: nat, row: Row)
    requires Stored(rows) && id < |rows| && row.account == rows[id].account && row.brokerId == rows[id].brokerId
    ensures Fits(rows, id, row)
  {
    forall j | 0 <= j < |rows| && j != id ensures !Clash(row, rows[j]) {
      assert !Clash(rows[id], rows[j]) by { if j < id { assert !Clash(rows[j], rows[id]); } }
    }
  }

  /** A transition that changes no order number never runs into the unique index. */
  lemma PlainMoveCannotConflict(rows: seq<Row>, id: nat, to: OrderState)
    requires Stored(rows)
    ensures !Move(rows, id, to, Keep).1.Conflict?
  {
    if id < |rows| && CanTransition(rows[id].status, to) {
      SameIdsFit(rows, id, Transition(rows[id], to).value);
    }
  }

  lemma InsertKeeps(rows: seq<Row>, row: Row)
    requires Stored(rows)
    ensures Stored(Insert(rows, row).0)
  {
  }

  lemma MoveKeeps(rows: seq<Row>, id: nat, to: OrderState, update: Update)
    requires Stored(rows)
    ensures Stored(Move(rows, id, to, update).0)
  {
    if Move(rows, id, to, update).1.Moved? {
      ReplaceStored(rows, id, WithUpdate(Transition(rows[id], to).value, update));
    }
  }

  lemma FillKeeps(rows: seq<Row>, id: nat, f: Fill)
    requires Stored(rows)
    ensures Stored(Book(rows, id, f).0)
  {
    if id < |rows| {
      ApplyFillSameIds(rows[id], f);
      SameIdsFit(rows, id, ApplyFill(rows[id], f));
      ReplaceStored(rows, id, ApplyFill(rows[id], f));
    }
  }

  lemma ApplyFillSameIds(row: Row, f: Fill)
    ensures var d := ApplyFill(row, f);
            d.key == row.key && d.account == row.account && d.brokerId == row.brokerId
  {
    hide SumQty, SumValue, Remaining, Target, HasEvent;
  }

  lemma AmendKeeps(rows: seq<Row>, id: nat, ordNo: Option<string>, qty: real, price: real)
    requires Stored(rows)
    ensures Stored(Amend(rows, id, ordNo, qty, price).0)
  {
    if id < |rows| && Fits(rows, id, rows[id].(brokerId := ordNo, qty := qty, price := Some(price))) {
      ReplaceStored(rows, id, rows[id].(brokerId := ordNo, qty := qty, price := Some(price)));
    }
  }

  /** Repeating an insert changes nothing and finds the first row. */
  lemma InsertIsIdempotent(rows: seq<Row>, row: Row, again: Row)
    requires again.key == row.key && !Insert(rows, row).1.Raised?
    ensures var (once, first) := Insert(rows, row);
            var (twice, second) := Insert(once, again);
            twice == once && second == Existing(first.id)
  {
    var (once, first) := Insert(rows, row);
    if first.Created? {
      assert once[|once| - 1].key == row.key;
    }
  }

  /** Registering an order the broker lists is refused with an error exactly when the account already has an order
      with that number, open or finished, under another key. */
  lemma RegistrationRaises(rows: seq<Row>, row: Row)
    ensures Insert(rows, row).1.Raised?
       <==> && (forall i :: 0 <= i < |rows| ==> rows[i].key != row.key)
            && row.account.Some? && row.brokerId.Some?
            && exists j :: 0 <= j < |rows| && rows[j].account == row.account && rows[j].brokerId == row.brokerId
  {
    if j :| 0 <= j < |rows| && rows[j].account == row.account && rows[j].brokerId == row.brokerId
            && row.account.Some? && row.brokerId.Some? {
      assert Clash(row, rows[j]);
    }
  }

  // ----- the repository -----

  class OrdersRepo {
    var rows: seq<Row>

    constructor ()
      ensures rows == []
    {
      rows := [];
    }

    /** The two unique indexes, looked up by the INSERT or UPDATE of a row at position `id`. */
    method IndexAllows(id: nat, row: Row) returns (ok: bool)
      ensures ok == Fits(rows, id, row)
    {
      var j := 0;
      while j < |rows|
        invariant 0 <= j <= |rows|
        invariant forall k :: 0 <= k < j && k != id ==> !Clash(row, rows[k])
      {
        if j != id && Clash(row, rows[j]) {
          return false;
        }
        j := j + 1;
      }
      return true;
    }

    method SelectByKey(key: string) returns (found: Option<nat>)
      requires Stored(rows)
      ensures found == WithKey(rows, key)
    {
      var j := 0;
      while j < |rows|
        invariant 0 <= j <= |rows|
        invariant forall k :: 0 <= k < j ==> rows[k].key != key
      {
        if rows[j].key == key {
          return Some(j);
        }
        j := j + 1;
      }
      return None;
    }

    method InsertOrder(row: Row) returns (res: Inserted)
      requires Stored(rows)
      modifies this
      ensures (rows, res) == Insert(old(rows), row)
      ensures Stored(rows)
    {
      InsertKeeps(rows, row);
      var found := SelectByKey(row.key);
      var free := IndexAllows(|rows|, row);
      if found.None? && free {
        rows := rows + [row];
        return Created(|rows| - 1);
      }
      if found.None? {
        return Raised;
      }
      return Existing(found.value);
    }

    method ChangeState(id: nat, to: OrderState, update: Update) returns (res: Moved)
      requires Stored(rows)
      modifies this
      ensures (rows, res) == Move(old(rows), id, to, update)
      ensures Stored(rows)
    {
      MoveKeeps(rows, id, to, update);
      if id >= |rows| {
        return NotFound;
      }
      var frm := rows[id].status;
      if !CanTransition(frm, to) {
        return Illegal;
      }
      var row := WithUpdate(rows[id].(status := to, log := rows[id].log + [Entry(frm, to)]), update);
      var free := IndexAllows(id, row);
      if !free {
        return Conflict;
      }
      rows := rows[id := row];
      return Moved(frm);
    }

    method FillExists(id: nat, eventSeq: string) returns (known: bool)
      requires id < |rows|
      ensures known == HasEvent(rows[id].fills, eventSeq)
    {
      var j, fills := 0, rows[id].fills;
      while j < |fills|
        invariant 0 <= j <= |fills|
        invariant forall k :: 0 <= k < j ==> fills[k].eventSeq != eventSeq
      {
        if fills[j].eventSeq == eventSeq {
          return true;
        }
        j := j + 1;
      }
      return false;
    }

    /** The two sums of the aggregate query over the stored fills. */
    method Aggregate(fills: seq<Fill>) returns (qty: real, value: real)
      ensures qty == SumQty(fills) && value == SumValue(fills)
    {
      qty, value := 0.0, 0.0;
      var j := 0;
      assert fills[..0] == [];
      while j < |fills|
        invariant 0 <= j <= |fills|
        invariant qty == SumQty(fills[..j]) && value == SumValue(fills[..j])
      {
        assert fills[..j + 1][..j] == fills[..j];
        qty, value := qty + fills[j].qty, value + Value(fills[j]);
        j := j + 1;
      }
      assert fills[..|fills|] == fills;
    }

    method StoreFill(id: nat, f: Fill) returns (applied: bool)
      requires Stored(rows)
      modifies this
      ensures (rows, applied) == Book(old(rows), id, f)
      ensures Stored(rows)
    {
      FillKeeps(rows, id, f);
      if id >= |rows| {
        return false;
      }
      var row := rows[id];
      if Terminal(row.status) {
        assert rows[id := row] == rows;
        return false;
      }
      var known := FillExists(id, f.eventSeq);
      if known {
        assert rows[id := row] == rows;
        return false;
      }
      var fills := row.fills + [f];
      var filled, value := Aggregate(fills);
      var remaining := if f.remaining.Some? then f.remaining.value
                       else if row.qty - filled > 0.0 then row.qty - filled else 0.0;
      var to := row.status;
      if remaining <= 0.0 && filled > 0.0 {
        to := Filled;
      } else if filled > 0.0 {
        to := PartiallyFilled;
      }
      var next := row.(fills := fills, filledQty := filled, remaining := Some(remaining),
                       avgPrice := if filled != 0.0 then Some(value / filled) else None);
      if to != row.status && CanTransition(row.status, to) {
        next := next.(status := to, log := row.log + [Entry(row.status, to)]);
      }
      rows := rows[id := next];
      return true;
    }

    method UpdateOrderFields(id: nat, ordNo: Option<string>, qty: real, price: real) returns (ok: bool)
      requires Stored(rows)
      modifies this
      ensures (rows, ok) == Amend(old(rows), id, ordNo, qty, price)
      ensures Stored(rows)
    {
      AmendKeeps(rows, id, ordNo, qty, price);
      if id >= |rows| {
        return true;
      }
      var row := rows[id].(brokerId := ordNo, qty := qty, price := Some(price));
      ok := IndexAllows(id, row);
      if ok {
        rows := rows[id := row];
      }
    }
  }
}
