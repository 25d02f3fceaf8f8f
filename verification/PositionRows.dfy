/** The position rows two writers share: `upsert_position_authority` and `upsert_position_marks` of
    server/app/repositories/orders_repo.py, without their timestamps. */
module PositionRows {
  import opened Wrappers

  /** The columns the reconciliation owns. */
  datatype Authority = Authority(qty: real, avgPrice: Option<real>, bucket: Option<string>, market: Option<string>,
                                 currency: Option<string>, side: Option<string>, multiplier: Option<real>,
                                 marginUsed: Option<real>)

  /** The columns the tracker owns, except the exchange rate at purchase. */
  datatype Marks = Marks(price: Option<real>, pnl: Option<real>, pnlRate: Option<real>, fxNow: Option<real>,
                         fxEstimated: bool, eval: Option<real>)

  datatype Row = Row(authority: Authority, marks: Marks, fxAtBuy: Option<real>)

  const NO_AUTHORITY := Authority(0.0, None, None, None, None, None, None, None)
  const NO_MARKS := Marks(None, None, None, None, false, None)

  datatype Write = Authoritative(a: Authority) | Marked(m: Marks, fxAtBuy: Option<real>)

  function Upsert(row: Option<Row>, w: Write): Row {
    match (row, w)
    case (None, Authoritative(a)) => Row(a, NO_MARKS, None)
    case (None, Marked(m, fx)) => Row(NO_AUTHORITY, m, fx)
    case (Some(r), Authoritative(a)) => r.(authority := a)
    case (Some(r), Marked(m, fx)) => r.(marks := m, fxAtBuy := if r.fxAtBuy.Some? then r.fxAtBuy else fx)
  }

  function Run(row: Option<Row>, writes: seq<Write>): Option<Row> {
    if writes == [] then row
    else Some(Upsert(Run(row, writes[..|writes| - 1]), writes[|writes| - 1]))
  }

  class PositionTable {
    var rows: map<(nat, nat), Row>

    constructor ()
      ensures rows == map[]
    {
      rows := map[];
    }

    function At(key: (nat, nat)): Option<Row>
      reads this
    {
      if key in rows then Some(rows[key]) else None
    }

    method UpsertAuthority(key: (nat, nat), a: Authority)
      modifies this
      ensures rows == old(rows)[key := Upsert(old(At(key)), Authoritative(a))]
    {
      if key in rows {
        var r := rows[key];
        rows := rows[key := Row(a, r.marks, r.fxAtBuy)];
      } else {
        rows := rows[key := Row(a, NO_MARKS, None)];
      }
    }

    method UpsertMarks(key: (nat, nat), m: Marks, fxAtBuy: Option<real>)
      modifies this
      ensures rows == old(rows)[key := Upsert(old(At(key)), Marked(m, fxAtBuy))]
    {
      if key in rows {
        var r := rows[key];
        rows := rows[key := Row(r.authority, m, if r.fxAtBuy.Some? then r.fxAtBuy else fxAtBuy)];
      } else {
        rows := rows[key := Row(NO_AUTHORITY, m, fxAtBuy)];
      }
    }
  }

  // ----- what is left after any interleaving -----

  /** Each writer's own writes, in order. */
  function Authorities(writes: seq<Write>): seq<Authority> {
    if writes == [] then []
    else
      var last := writes[|writes| - 1];
      Authorities(writes[..|writes| - 1]) + if last.Authoritative? then [last.a] else []
  }

  function MarkWrites(writes: seq<Write>): seq<(Marks, Option<real>)> {
    if writes == [] then []
    else
      var last := writes[|writes| - 1];
      MarkWrites(writes[..|writes| - 1]) + if last.Marked? then [(last.m, last.fxAtBuy)] else []
  }

  function FirstFx(marks: seq<(Marks, Option<real>)>): Option<real> {
    if marks == [] then None
    else
      var before := FirstFx(marks[..|marks| - 1]);
      if before.Some? then before else marks[|marks| - 1].1
  }

  /** The first rate at purchase that is not null. */
  lemma {:induction false} FirstFxIsFirst(marks: seq<(Marks, Option<real>)>)
    ensures FirstFx(marks).None? <==> forall i :: 0 <= i < |marks| ==> marks[i].1.None?
    ensures FirstFx(marks).Some? ==> exists i :: 0 <= i < |marks| && marks[i].1 == FirstFx(marks)
                                                  && forall j :: 0 <= j < i ==> marks[j].1.None?
  {
    if marks != [] {
      var n := |marks| - 1;
      var before := marks[..n];
      FirstFxIsFirst(before);
      assert forall i :: 0 <= i < n ==> before[i] == marks[i];
      if FirstFx(before).Some? {
        var i :| 0 <= i < n && before[i].1 == FirstFx(before) && forall j :: 0 <= j < i ==> before[j].1.None?;
        assert marks[i].1 == FirstFx(marks);
        assert forall j :: 0 <= j < i ==> marks[j].1.None?;
      } else {
        assert forall j :: 0 <= j < n ==> marks[j].1.None?;
      }
    }
  }

  /** The row the two histories call for. */
  function Settled(authorities: seq<Authority>, marks: seq<(Marks, Option<real>)>): Row {
    Row(if authorities == [] then NO_AUTHORITY else authorities[|authorities| - 1],
        if marks == [] then NO_MARKS else marks[|marks| - 1].0,
        FirstFx(marks))
  }

  /** After any interleaving the row holds the last authority values, the last marks and the first known rate at
      purchase. */
  lemma {:induction false} RowIsSettled(writes: seq<Write>)
    ensures Run(None, writes) == if writes == [] then None else Some(Settled(Authorities(writes), MarkWrites(writes)))
  {
    if writes != [] {
      var n := |writes| - 1;
      RowIsSettled(writes[..n]);
      SettledStep(Authorities(writes[..n]), MarkWrites(writes[..n]), writes[n]);
      if n == 0 {
        NothingYet(writes[..n]);
      }
    }
  }

  lemma NothingYet(writes: seq<Write>)
    requires writes == []
    ensures Authorities(writes) == [] && MarkWrites(writes) == [] && Run(None, writes) == None
  {
  }

  lemma SettledStep(authorities: seq<Authority>, marks: seq<(Marks, Option<real>)>, w: Write)
    ensures Upsert(Some(Settled(authorities, marks)), w)
         == Settled(authorities + (if w.Authoritative? then [w.a] else []),
                    marks + if w.Marked? then [(w.m, w.fxAtBuy)] else [])
    ensures authorities == [] && marks == [] ==> Upsert(None, w) == Upsert(Some(Settled(authorities, marks)), w)
  {
    if w.Marked? {
      assert (marks + [(w.m, w.fxAtBuy)])[..|marks|] == marks;
    } else {
      assert marks + [] == marks;
    }
  }

  /** The two writers commute: only the order within each of them matters. */
  lemma WritersCommute(a: seq<Write>, b: seq<Write>)
    requires Authorities(a) == Authorities(b) && MarkWrites(a) == MarkWrites(b)
    ensures Run(None, a) == Run(None, b)
  {
    hide Authorities, MarkWrites, Run, Settled;
    RowIsSettled(a);
    RowIsSettled(b);
    CountWrites(a);
    CountWrites(b);
  }

  lemma {:induction false} CountWrites(writes: seq<Write>)
    ensures |writes| == |Authorities(writes)| + |MarkWrites(writes)|
  {
    if writes != [] {
      CountWrites(writes[..|writes| - 1]);
    }
  }
}
