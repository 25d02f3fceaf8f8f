/** Why the daily-loss lock speaks of orders in flight: an entry admitted before the latch is sent after it. */
module LockoutWitness {
  import DailyCapExact
  import DailyLoss
  import opened EntryLockout
  import opened OrderLedger
  import OrderRuns
  import OrderStates
  import opened RiskGate
  import opened Wrappers

  const ORDER := DailyCapExact.Order(EntryOrder, 100.0, "1")
  const ENV := DailyCapExact.Roomy(100.0, 100.0)
  const REQUEST := RequestOf(ORDER, None)

  /** A live server that has just come up, its bucket active since the morning. */
  const UP := OrderRuns.Sys([], map[], map[], [], false)
  const MORNING := Desk(Live, UP, Some(DailyCapExact.FRESH), 0, [])

  const GO := OrderRuns.Go(0, OrderRuns.Failed)
  const SUBMITTED := OrderRuns.Approve(REQUEST).(status := OrderStates.Submitted,
                                                  log := [OrderStates.Entry(OrderStates.Approved, OrderStates.Submitted)])

  /** The placement's four steps up to the broker call. */
  lemma PlacementPath()
    ensures var a := OrderRuns.Next(UP, OrderRuns.Spawn(0, OrderRuns.Place(REQUEST)));
            var b := OrderRuns.Next(OrderRuns.Next(OrderRuns.Next(a, GO), GO), GO);
            && a.procs == map[0 := OrderRuns.Place(REQUEST)]
            && b.rows == [SUBMITTED] && b.procs == map[0 := OrderRuns.PlaceSend(0)] && b.sent == []
            && OrderRuns.Next(b, GO).sent == [0]
  {
    var a := OrderRuns.Next(UP, OrderRuns.Spawn(0, OrderRuns.Place(REQUEST)));
    var row := OrderRuns.Approve(REQUEST);
    var i := OrderRuns.Next(a, GO);
    assert i == OrderRuns.Sys([row], map[], map[0 := OrderRuns.PlaceWait(0)], [], false);
    var w := OrderRuns.Next(i, GO);
    assert w == OrderRuns.Sys([row], map[0 := 0], map[0 := OrderRuns.PlaceHeld(0)], [], false);
    Submits(row);
  }

  lemma Submits(row: Row)
    requires row == OrderRuns.Approve(REQUEST)
    ensures var w := OrderRuns.Sys([row], map[0 := 0], map[0 := OrderRuns.PlaceHeld(0)], [], false);
            var b := OrderRuns.Next(w, GO);
            && b.rows == [SUBMITTED] && b.procs == map[0 := OrderRuns.PlaceSend(0)] && b.sent == []
            && OrderRuns.Next(b, GO).sent == [0]
  {
    assert [row][0 := SUBMITTED] == [SUBMITTED];
    assert row.log + [OrderStates.Entry(OrderStates.Approved, OrderStates.Submitted)] == SUBMITTED.log;
  }

  const BREACH := DailyLoss.Tick(-10.0, 0.0, "d")
  const LIMITS := DailyLoss.LossLimits(5.0, 5.0)

  /** At the latch an entry is in flight; the next step sends it. */
  lemma InFlightEntryIsSent()
    ensures exists d: Desk, events: seq<Event>, e: Event ::
      && d == Run(MORNING, events) && LatchedOn(d, "d") && |d.admitted| == 1
      && !EffectiveExit(d.admitted[0].order, d.admitted[0].ctx)
      && d.sys.sent == [] && Next(d, e).sys.sent == [0]
      && |Next(d, e).sys.rows| == 1 && Next(d, e).sys.rows[0].key == d.admitted[0].order.clientOrderId
  {
    hide OrderRuns.Next, PreCheck, EffectiveExit, HasQuarantined, Run;
    var attempt := Attempt(0, ENV, ORDER, DailyCapExact.Bare([]), None);
    var step := Orders(GO);
    var tick := Evaluated(BREACH, LIMITS);
    var events := [attempt, step, step, step, tick];
    Admits();
    PlacementPath();
    FiveSteps(MORNING, attempt, step, step, step, tick);
    var d := Run(MORNING, events);
    assert LatchedOn(d, "d");
    KeyStays(d.sys);
    assert Next(d, step).sys.sent == [0];
  }

  lemma KeyStays(sys: OrderRuns.Sys)
    requires sys.rows == [SUBMITTED] && sys.procs == map[0 := OrderRuns.PlaceSend(0)]
    ensures OrderRuns.Next(sys, GO).rows == [SUBMITTED]
  {
  }

  lemma Admits()
    ensures PreCheck(EnvOf(MORNING, ENV), ORDER, DailyCapExact.Bare([])).Ok()
    ensures !EffectiveExit(ORDER, DailyCapExact.Bare([]))
  {
    hide PreCheck, EffectiveExit;
    assert EnvOf(MORNING, ENV) == ENV.(risk := Some(DailyCapExact.FRESH));
    DailyCapExact.EntryAdmitted(DailyCapExact.FRESH, 100.0, "1", 100.0, 100.0);
  }

  lemma FiveSteps(d: Desk, a: Event, b: Event, c: Event, e: Event, f: Event)
    ensures Run(d, [a, b, c, e, f]) == Next(Next(Next(Next(Next(d, a), b), c), e), f)
  {
    hide Next;
    assert [a, b, c, e, f][..4] == [a, b, c, e] && [a, b, c, e][..3] == [a, b, c];
    assert [a, b, c][..2] == [a, b] && [a, b][..1] == [a] && [a][..0] == [];
    assert Run(d, [a][..0]) == d;
    assert Run(d, [a]) == Next(d, a);
    assert Run(d, [a, b]) == Next(Run(d, [a]), b);
    assert Run(d, [a, b, c]) == Next(Run(d, [a, b]), c);
    assert Run(d, [a, b, c, e]) == Next(Run(d, [a, b, c]), e);
  }
}
