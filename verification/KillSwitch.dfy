/** Level 2 of the kill switch on the paper bucket: `flatten_all_positions` and `_flatten_one` of
    server/app/risk/killswitch.py. */
module KillSwitch {
  import DailyCap
  import DailyLoss
  import opened EntryLockout
  import opened OrderDesk
  import opened OrderLedger
  import OrderRuns
  import opened OrdersDb
  import opened OrderSolo
  import opened OrderStates
  import opened Reals
  import opened RiskGate
  import opened Wrappers

  /** A stored position with its average price. */
  datatype Held = Held(p: Position, avg: Option<real>)

  function HeldQty(h: Held): nat {
    Abs(h.p.qty).Floor
  }

  /** The side that reduces the position; a position without direction is skipped. */
  function ExitSide(h: Held): Side {
    if h.p.direction == Some(Long) then Sell else Buy
  }

  predicate Fires(h: Held) {
    HeldQty(h) > 0 && h.p.direction.Some?
  }

  /** `tag` is the run sequence in decimal. */
  function Key(h: Held, tag: string): string {
    "flat:paper:" + h.p.symbol + ":" + tag
  }

  function ExitFor(h: Held, tag: string): Intent {
    Intent(OverseasFutures, h.p.symbol, ExitSide(h), ExitOrder, LimitOrder, HeldQty(h), h.avg, "HKEX", h.p.currency,
           Key(h, tag))
  }

  function PositionsOf(held: seq<Held>): seq<Position> {
    seq(|held|, i requires 0 <= i < |held| => held[i].p)
  }

  /** The table, the sent order ids and the orders handed to the broker. */
  datatype State = State(rows: seq<Row>, sent: seq<nat>, handed: seq<Intent>)

  function PlaceOn(env: Env, o: Intent, ctx: Context, account: Option<nat>, a: OrderRuns.Answer, s: State): State {
    if !PreCheck(env.(quarantined := HasQuarantined(s.rows, Paper)), o, ctx).Ok() then s
    else
      var (rows, sent) := Solo(OrderRuns.Place(RequestOf(o, account)), Heard(o, a), s.rows, s.sent);
      State(rows, sent, s.handed + if |sent| > |s.sent| && Sendable(o) then [o] else [])
  }

  /** One pass over the positions; `answers` are the broker's. */
  function Flatten(env: Env, ctx: Context, held: seq<Held>, account: Option<nat>, answers: seq<OrderRuns.Answer>,
                   tag: string, s: State): State
    requires |answers| == |held|
  {
    if held == [] then s
    else
      var next := if Fires(held[0]) then PlaceOn(env, ExitFor(held[0], tag), ctx, account, answers[0], s) else s;
      Flatten(env, ctx, held[1..], account, answers[1..], tag, next)
  }

  /** There is something to flatten: a direction, and at least one contract. */
  predicate Flattenable(h: Held) {
    h.p.direction.Some? && (h.p.qty >= 1.0 || h.p.qty <= -1.0)
  }

  lemma FiresIff(h: Held)
    ensures Fires(h) <==> Flattenable(h)
  {
  }

  /** The symbols of the positions with something to flatten, or of those without. */
  function SymbolsOf(held: seq<Held>, flattenable: bool): seq<string> {
    if held == [] then []
    else
      var last := held[|held| - 1];
      SymbolsOf(held[..|held| - 1], flattenable) + if Flattenable(last) == flattenable then [last.p.symbol] else []
  }

  method FireExit(desk: OrderDesk, env: Env, ctx: Context, o: Intent, account: Option<nat>, a: OrderRuns.Answer)
    requires Stored(desk.service.repo.rows) && desk.bucket.Paper? && o.market.OverseasFutures?
    modifies desk, desk.gate, desk.service, desk.service.repo
    ensures Stored(desk.service.repo.rows) && desk.risk == old(desk.risk)
    ensures State(desk.service.repo.rows, desk.service.sent, desk.handed)
         == PlaceOn(env.(risk := old(desk.risk)), o, ctx, account, a,
                    State(old(desk.service.repo.rows), old(desk.service.sent), old(desk.handed)))
  {
    hide PreCheck, HasQuarantined, Solo, Stored, Sendable, RequestOf, Heard, PlaceOn, DailyCap.Bump,
         DailyLoss.AddUsed;
    ghost var was := State(desk.service.repo.rows, desk.service.sent, desk.handed);
    PlaceOnIs(env.(risk := desk.risk), o, ctx, account, a, was);
    PaperAddsNothing(env, o, ctx, desk.risk);
    var d := desk.Place(env, o, ctx, account, a);
  }

  lemma PlaceOnIs(env: Env, o: Intent, ctx: Context, account: Option<nat>, a: OrderRuns.Answer, s: State)
    ensures var t := PlaceOn(env, o, ctx, account, a, s);
            if !PreCheck(env.(quarantined := HasQuarantined(s.rows, Paper)), o, ctx).Ok() then t == s
            else
              && (t.rows, t.sent) == Solo(OrderRuns.Place(RequestOf(o, account)), Heard(o, a), s.rows, s.sent)
              && t.handed == s.handed + if |t.sent| > |s.sent| && Sendable(o) then [o] else []
  {
    hide PreCheck, HasQuarantined, Solo, Sendable;
  }

  method FlattenAll(desk: OrderDesk, env: Env, ctx: Context, held: seq<Held>, account: Option<nat>,
                    answers: seq<OrderRuns.Answer>, tag: string, marketClosed: bool)
    returns (fired: seq<string>, pending: seq<string>, skipped: seq<string>)
    requires Stored(desk.service.repo.rows) && desk.bucket.Paper? && |answers| == |held|
    modifies desk, desk.gate, desk.service, desk.service.repo
    ensures Stored(desk.service.repo.rows) && desk.risk == old(desk.risk)
    ensures var was := State(old(desk.service.repo.rows), old(desk.service.sent), old(desk.handed));
            State(desk.service.repo.rows, desk.service.sent, desk.handed)
              == if marketClosed then was
                 else Flatten(env.(risk := old(desk.risk)), ctx, held, account, answers, tag, was)
    ensures skipped == SymbolsOf(held, false)
    ensures if marketClosed then pending == SymbolsOf(held, true) && fired == []
            else fired == SymbolsOf(held, true) && pending == []
  {
    hide PlaceOn, Stored, Flattenable;
    fired, pending, skipped := [], [], [];
    ghost var was := State(desk.service.repo.rows, desk.service.sent, desk.handed);
    ghost var now := env.(risk := desk.risk);
    var i := 0;
    while i < |held|
      invariant 0 <= i <= |held| && Stored(desk.service.repo.rows) && desk.risk == old(desk.risk)
      invariant var s := State(desk.service.repo.rows, desk.service.sent, desk.handed);
                if marketClosed then s == was
                else Flatten(now, ctx, held[i..], account, answers[i..], tag, s)
                       == Flatten(now, ctx, held, account, answers, tag, was)
      invariant skipped == SymbolsOf(held[..i], false)
      invariant if marketClosed then pending == SymbolsOf(held[..i], true) && fired == []
                else fired == SymbolsOf(held[..i], true) && pending == []
    {
      OneMoreSymbol(held, i);
      var h := held[i];
      FiresIff(h);
      assert held[i..][1..] == held[i + 1..] && answers[i..][1..] == answers[i + 1..];
      if HeldQty(h) <= 0 || h.p.direction.None? {
        skipped := skipped + [h.p.symbol];
      } else if marketClosed {
        pending := pending + [h.p.symbol];
      } else {
        FireExit(desk, env, ctx, ExitFor(h, tag), account, answers[i]);
        fired := fired + [h.p.symbol];
      }
      i := i + 1;
    }
    assert held[..i] == held;
  }

  lemma OneMoreSymbol(held: seq<Held>, i: nat)
    requires i < |held|
    ensures forall flattenable ::
      SymbolsOf(held[..i + 1], flattenable)
        == SymbolsOf(held[..i], flattenable) + if Flattenable(held[i]) == flattenable then [held[i].p.symbol] else []
  {
    hide Flattenable;
    assert held[..i + 1][..i] == held[..i];
  }

  lemma PaperAddsNothing(env: Env, o: Intent, ctx: Context, risk: Option<DailyLoss.RiskState>)
    requires o.market.OverseasFutures?
    ensures DailyLoss.AddUsed(risk, DailyCap.Bump(env, o, ctx)) == risk
  {
  }

  // ----- what a pass does -----

  /** No symbol is held twice. */
  ghost predicate OneEach(held: seq<Held>) {
    forall i, j :: 0 <= i < j < |held| ==> held[i].p.symbol != held[j].p.symbol
  }

  /** The exit of a position: an order to reduce, on the opposite side, of all its whole contracts, at its average. */
  lemma ExitIs(h: Held, tag: string)
    requires Flattenable(h)
    ensures var o := ExitFor(h, tag);
            && o.market.OverseasFutures? && o.symbol == h.p.symbol && o.currency == h.p.currency && o.exchange == "HKEX"
            && o.kind.ExitOrder? && o.orderType.LimitOrder? && o.price == h.avg
            && (o.side.Sell? <==> h.p.direction == Some(Long)) && (o.side.Buy? <==> h.p.direction == Some(Short))
            && 1 <= o.qty && o.qty as real <= Abs(h.p.qty) < (o.qty + 1) as real
            && o.clientOrderId == "flat:paper:" + h.p.symbol + ":" + tag
  {
    LongOrShort(h);
  }

  lemma {:induction false} HoldingIs(positions: seq<Position>, i: nat)
    requires i < |positions|
    requires forall j, k :: 0 <= j < k < |positions| ==> positions[j].symbol != positions[k].symbol
    ensures Holding(positions, positions[i].symbol) == Some(positions[i])
  {
    if i > 0 {
      assert positions[0].symbol != positions[i].symbol;
      HoldingIs(positions[1..], i - 1);
    }
  }

  /** The exit of a held position passes the gate whatever is halted, killed or quarantined, its own halt included. */
  lemma PassesItsOwnHalt(env: Env, ctx: Context, held: seq<Held>, i: nat, tag: string)
    requires OneEach(held) && i < |held| && Flattenable(held[i]) && ctx.positions == PositionsOf(held)
    requires env.engineActive && env.whitelisted
    ensures EffectiveExit(ExitFor(held[i], tag), ctx)
    ensures PreCheck(env, ExitFor(held[i], tag), ctx) == Decision(Pass, [], false)
  {
    hide Holding;
    HoldingIs(ctx.positions, i);
    assert Holding(ctx.positions, held[i].p.symbol) == Some(held[i].p);
    LongOrShort(held[i]);
  }

  lemma LongOrShort(h: Held)
    requires Flattenable(h)
    ensures h.p.direction == Some(Long) || h.p.direction == Some(Short)
    ensures Abs(h.p.qty) > 0.0
  {
    assert h.p.direction.value.Long? || h.p.direction.value.Short?;
  }

  lemma SymbolOf(h: Held, tag: string)
    ensures |Key(h, tag)| == 12 + |h.p.symbol| + |tag|
    ensures Key(h, tag)[11..|Key(h, tag)| - 1 - |tag|] == h.p.symbol
  {
  }

  lemma KeysDiffer(a: Held, b: Held, tag: string)
    requires a.p.symbol != b.p.symbol
    ensures Key(a, tag) != Key(b, tag)
  {
    SymbolOf(a, tag);
    SymbolOf(b, tag);
  }

  ghost predicate Known(rows: seq<Row>, key: string) {
    WithKey(rows, key).Some?
  }

  lemma KnownAfter(rows: seq<Row>, row: Row, key: string)
    ensures Known(rows + [row], key) <==> Known(rows, key) || row.key == key
  {
    assert (rows + [row])[..|rows|] == rows;
  }

  /** Placing one exit: nothing happens under a known key; under a new one it is stored, and handed to the broker if it
      has a price, else left in doubt. */
  lemma PlaceExit(env: Env, ctx: Context, o: Intent, account: Option<nat>, a: OrderRuns.Answer, s: State)
    requires PreCheck(env.(quarantined := HasQuarantined(s.rows, Paper)), o, ctx).Ok()
    ensures var t := PlaceOn(env, o, ctx, account, a, s);
            if Known(s.rows, o.clientOrderId) then t == s
            else
              && |t.rows| == |s.rows| + 1 && t.rows[..|s.rows|] == s.rows
              && t.rows[|s.rows|].key == o.clientOrderId && t.rows[|s.rows|].qty == o.qty as real
              && t.sent == s.sent + [|s.rows|] && t.handed == s.handed + (if Sendable(o) then [o] else [])
              && (!Sendable(o) ==> t.rows[|s.rows|].status.InDoubt?)
  {
    hide PreCheck, HasQuarantined, Solo, WithKey;
    PlaceAlone(RequestOf(o, account), Heard(o, a), s.rows, s.sent);
  }

  /** The exits of the positions with something to flatten and a known average whose keys are new, in order. */
  function Due(held: seq<Held>, rows: seq<Row>, tag: string): seq<Intent> {
    if held == [] then []
    else
      (if Flattenable(held[0]) && WithKey(rows, Key(held[0], tag)).None? && held[0].avg.Some?
       then [ExitFor(held[0], tag)] else [])
      + Due(held[1..], rows, tag)
  }

  lemma {:induction false} DueIgnores(held: seq<Held>, rows: seq<Row>, row: Row, tag: string)
    requires forall i :: 0 <= i < |held| ==> Key(held[i], tag) != row.key
    ensures Due(held, rows + [row], tag) == Due(held, rows, tag)
  {
    hide WithKey, Key, Flattenable;
    if held != [] {
      KnownAfter(rows, row, Key(held[0], tag));
      DueIgnores(held[1..], rows, row, tag);
    }
  }

  /** Level 2 on an active paper engine hands the broker exactly one order per position of at least one contract with a
      direction and a known average, not yet flattened under this run; afterwards the keys of all positions with
      something to flatten are known. */
  lemma {:induction false} FlattenHandsExits(env: Env, ctx: Context, all: seq<Held>, from: nat, account: Option<nat>,
                                             answers: seq<OrderRuns.Answer>, tag: string, s: State)
    requires OneEach(all) && from <= |all| && ctx.positions == PositionsOf(all) && |answers| == |all| - from
    requires env.engineActive && env.whitelisted
    ensures var t := Flatten(env, ctx, all[from..], account, answers, tag, s);
            && t.handed == s.handed + Due(all[from..], s.rows, tag)
            && |t.sent| - |s.sent| == |t.rows| - |s.rows|
            && s.rows <= t.rows
            && (forall i :: from <= i < |all| && Flattenable(all[i]) ==> Known(t.rows, Key(all[i], tag)))
    decreases |all| - from
  {
    hide PreCheck, HasQuarantined, PlaceOn, WithKey, Key, Due, Flattenable, Fires, ExitFor, Sendable, PositionsOf;
    DueUnfold(all, from, s.rows, tag);
    if from < |all| {
      FiresIff(all[from]);
      assert all[from..][1..] == all[from + 1..];
      if Flattenable(all[from]) {
        HandOne(env, ctx, all, from, account, answers[0], tag, s);
        var t := PlaceOn(env, ExitFor(all[from], tag), ctx, account, answers[0], s);
        FlattenHandsExits(env, ctx, all, from + 1, account, answers[1..], tag, t);
        var u := Flatten(env, ctx, all[from + 1..], account, answers[1..], tag, t);
        StillKnown(t.rows, u.rows, Key(all[from], tag));
      } else {
        FlattenHandsExits(env, ctx, all, from + 1, account, answers[1..], tag, s);
      }
    }
  }

  lemma HandOne(env: Env, ctx: Context, all: seq<Held>, i: nat, account: Option<nat>, a: OrderRuns.Answer, tag: string,
                s: State)
    requires OneEach(all) && i < |all| && Flattenable(all[i]) && ctx.positions == PositionsOf(all)
    requires env.engineActive && env.whitelisted
    ensures var t := PlaceOn(env, ExitFor(all[i], tag), ctx, account, a, s);
            && t.handed == s.handed + (if !Known(s.rows, Key(all[i], tag)) && all[i].avg.Some?
                                       then [ExitFor(all[i], tag)] else [])
            && |t.sent| - |s.sent| == |t.rows| - |s.rows| && s.rows <= t.rows
            && Known(t.rows, Key(all[i], tag))
            && Due(all[i + 1..], t.rows, tag) == Due(all[i + 1..], s.rows, tag)
  {
    hide PreCheck, HasQuarantined, PlaceOn, WithKey, Key, Due, Flattenable, ExitFor, Sendable, PositionsOf;
    PassesItsOwnHalt(env.(quarantined := HasQuarantined(s.rows, Paper)), ctx, all, i, tag);
    SendableIff(all[i], tag);
    PlaceExit(env, ctx, ExitFor(all[i], tag), account, a, s);
    DueSettled(all, i, s, PlaceOn(env, ExitFor(all[i], tag), ctx, account, a, s), tag);
  }

  lemma SendableIff(h: Held, tag: string)
    ensures Sendable(ExitFor(h, tag)) <==> h.avg.Some?
    ensures ExitFor(h, tag).clientOrderId == Key(h, tag)
  {
  }

  lemma DueUnfold(all: seq<Held>, from: nat, rows: seq<Row>, tag: string)
    requires from <= |all|
    ensures Due(all[from..], rows, tag)
         == if from == |all| then []
            else (if Flattenable(all[from]) && !Known(rows, Key(all[from], tag)) && all[from].avg.Some?
                  then [ExitFor(all[from], tag)] else [])
                 + Due(all[from + 1..], rows, tag)
  {
    if from < |all| {
      assert all[from..][1..] == all[from + 1..];
    }
  }

  lemma DueSettled(all: seq<Held>, from: nat, s: State, t: State, tag: string)
    requires OneEach(all) && from < |all|
    requires if Known(s.rows, Key(all[from], tag)) then t == s
             else |t.rows| == |s.rows| + 1 && t.rows[..|s.rows|] == s.rows && t.rows[|s.rows|].key == Key(all[from], tag)
    ensures Due(all[from + 1..], t.rows, tag) == Due(all[from + 1..], s.rows, tag)
    ensures Known(t.rows, Key(all[from], tag)) && s.rows <= t.rows
  {
    hide WithKey, Key, Due;
    if !Known(s.rows, Key(all[from], tag)) {
      var row := t.rows[|s.rows|];
      assert t.rows == s.rows + [row];
      var rest := all[from + 1..];
      forall i | 0 <= i < |rest| ensures Key(rest[i], tag) != row.key {
        assert rest[i] == all[from + 1 + i];
        KeysDiffer(all[from], rest[i], tag);
      }
      DueIgnores(rest, s.rows, row, tag);
      KnownAfter(s.rows, row, Key(all[from], tag));
    }
  }

  lemma {:induction false} StillKnown(rows: seq<Row>, more: seq<Row>, key: string)
    requires rows <= more && Known(rows, key)
    ensures Known(more, key)
    decreases |more|
  {
    if |rows| < |more| {
      var rest := more[..|more| - 1];
      assert rows <= rest;
      StillKnown(rows, rest, key);
      assert more == rest + [more[|more| - 1]];
      KnownAfter(rest, more[|more| - 1], key);
    } else {
      assert rows == more;
    }
  }

  lemma {:induction false} NothingDue(held: seq<Held>, rows: seq<Row>, tag: string)
    requires forall i :: 0 <= i < |held| && Flattenable(held[i]) ==> Known(rows, Key(held[i], tag))
    ensures Due(held, rows, tag) == []
  {
    hide Key, WithKey, Flattenable;
    if held != [] {
      NothingDue(held[1..], rows, tag);
    }
  }

  /** Repeating a run hands the broker nothing more and changes no order, whatever the broker would answer. */
  lemma FlattenTwice(env: Env, ctx: Context, all: seq<Held>, account: Option<nat>, answers: seq<OrderRuns.Answer>,
                     again: seq<OrderRuns.Answer>, tag: string, s: State)
    requires OneEach(all) && ctx.positions == PositionsOf(all) && |answers| == |again| == |all|
    requires env.engineActive && env.whitelisted
    ensures var once := Flatten(env, ctx, all, account, answers, tag, s);
            Flatten(env, ctx, all, account, again, tag, once) == once
  {
    hide Flatten, Due, Key, WithKey, Flattenable;
    assert all[0..] == all;
    FlattenHandsExits(env, ctx, all, 0, account, answers, tag, s);
    var once := Flatten(env, ctx, all, account, answers, tag, s);
    var twice := Flatten(env, ctx, all, account, again, tag, once);
    FlattenHandsExits(env, ctx, all, 0, account, again, tag, once);
    NothingDue(all, once.rows, tag);
    SentUnchanged(env, ctx, all, 0, account, again, tag, once);
  }

  lemma {:induction false} SentUnchanged(env: Env, ctx: Context, all: seq<Held>, from: nat, account: Option<nat>,
                                         answers: seq<OrderRuns.Answer>, tag: string, s: State)
    requires OneEach(all) && from <= |all| && ctx.positions == PositionsOf(all) && |answers| == |all| - from
    requires env.engineActive && env.whitelisted
    requires forall i :: from <= i < |all| && Flattenable(all[i]) ==> Known(s.rows, Key(all[i], tag))
    ensures Flatten(env, ctx, all[from..], account, answers, tag, s) == s
    decreases |all| - from
  {
    hide PreCheck, HasQuarantined, PlaceOn, WithKey, Key, Flattenable;
    if from < |all| {
      FiresIff(all[from]);
      if Flattenable(all[from]) {
        PassesItsOwnHalt(env.(quarantined := HasQuarantined(s.rows, Paper)), ctx, all, from, tag);
        PlaceExit(env, ctx, ExitFor(all[from], tag), account, answers[0], s);
      }
      assert all[from..][1..] == all[from + 1..];
      SentUnchanged(env, ctx, all, from + 1, account, answers[1..], tag, s);
    }
  }

  /** Under a run not used before, every position of at least one contract with a direction and a known average gets its
      one order. */
  lemma {:induction false} EveryPositionIsDue(held: seq<Held>, rows: seq<Row>, tag: string)
    requires forall i :: 0 <= i < |held| ==>
               Flattenable(held[i]) && held[i].avg.Some? && !Known(rows, Key(held[i], tag))
    ensures |Due(held, rows, tag)| == |held|
    ensures forall i :: 0 <= i < |held| ==> Due(held, rows, tag)[i] == ExitFor(held[i], tag)
  {
    hide Key, WithKey, ExitFor, Flattenable;
    if held != [] {
      EveryPositionIsDue(held[1..], rows, tag);
    }
  }

  /** Without an average the adapter raises before the broker is asked: the order stays in doubt, and its key keeps the
      position out of every repetition of the run. */
  lemma UnknownAverageNeverSent(env: Env, ctx: Context, all: seq<Held>, i: nat, account: Option<nat>,
                                a: OrderRuns.Answer, again: OrderRuns.Answer, tag: string, s: State)
    requires OneEach(all) && i < |all| && Flattenable(all[i]) && ctx.positions == PositionsOf(all) && all[i].avg.None?
    requires env.engineActive && env.whitelisted && !Known(s.rows, Key(all[i], tag))
    ensures var o := ExitFor(all[i], tag);
            var t := PlaceOn(env, o, ctx, account, a, s);
            && t.handed == s.handed && |t.rows| == |s.rows| + 1 && t.rows[|s.rows|].status.InDoubt?
            && PlaceOn(env, o, ctx, account, again, t) == t
  {
    hide PreCheck, HasQuarantined, PlaceOn, WithKey;
    var o := ExitFor(all[i], tag);
    PassesItsOwnHalt(env.(quarantined := HasQuarantined(s.rows, Paper)), ctx, all, i, tag);
    PlaceExit(env, ctx, o, account, a, s);
    var t := PlaceOn(env, o, ctx, account, a, s);
    PassesItsOwnHalt(env.(quarantined := HasQuarantined(t.rows, Paper)), ctx, all, i, tag);
    assert t.rows == s.rows + [t.rows[|s.rows|]];
    KnownAfter(s.rows, t.rows[|s.rows|], Key(all[i], tag));
    PlaceExit(env, ctx, o, account, again, t);
  }

  function SignedPosition(h: Held): real {
    if h.p.direction == Some(Short) then -Abs(h.p.qty) else Abs(h.p.qty)
  }

  function SignedOrder(o: Intent): real {
    if o.side.Buy? then o.qty as real else -(o.qty as real)
  }

  lemma WholeSize(x: real)
    requires x.Floor as real == x
    ensures Abs(x).Floor as real == Abs(x)
  {
    var n := x.Floor;
    assert Abs(x) == (if x < 0.0 then -n else n) as real;
  }

  lemma OrderIs(h: Held, tag: string)
    requires Flattenable(h)
    ensures SignedPosition(h) + SignedOrder(ExitFor(h, tag))
         == if h.p.direction == Some(Short) then -(Abs(h.p.qty) - Abs(h.p.qty).Floor as real)
            else Abs(h.p.qty) - Abs(h.p.qty).Floor as real
  {
    hide Key;
    LongOrShort(h);
  }

  /** Filled in full, the exit of a position leaves less than one contract of it, and nothing if it was whole; filled in
      part, it never takes the position past zero. */
  lemma ExitCloses(h: Held, tag: string, filled: real)
    requires Flattenable(h) && 0.0 <= filled <= ExitFor(h, tag).qty as real
    ensures Abs(SignedPosition(h) + SignedOrder(ExitFor(h, tag))) < 1.0
    ensures h.p.qty.Floor as real == h.p.qty ==> SignedPosition(h) + SignedOrder(ExitFor(h, tag)) == 0.0
    ensures var left := SignedPosition(h) + if ExitFor(h, tag).side.Buy? then filled else -filled;
            if h.p.direction == Some(Short) then left <= 0.0 else left >= 0.0
  {
    hide ExitFor, SignedOrder, Flattenable;
    LongOrShort(h);
    ExitIs(h, tag);
    OrderIs(h, tag);
    if h.p.qty.Floor as real == h.p.qty {
      WholeSize(h.p.qty);
    }
  }
}
