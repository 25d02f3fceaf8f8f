/** Exactly when the daily cap is exceeded: by one exit, and by two entries that overlap. */
module DailyCapExact {
  import opened DailyCap
  import opened DailyCapRoom
  import DailyLoss
  import opened Exposure
  import opened RiskGate
  import opened Wrappers

  // ----- entries on demand -----

  /** An environment in which a won entry of up to `big` meets no limit but the daily cap. */
  function Roomy(cap: real, big: real): Env {
    Env(true, false, None, false, true, true, Fx(map[], map[], 0.0),
        Limits(10, 20, big, WeightLimits(1.0, 1.0, 1.0), 20, big), big, cap, false)
  }

  function Order(kind: Kind, price: real, id: string): Intent {
    Intent(KoreaStock, "A", if kind.EntryOrder? then Buy else Sell, kind, LimitOrder, 1, Some(price), "KRX", Some("KRW"),
           id)
  }

  function Bare(positions: seq<Position>): Context {
    Context(None, None, 0, positions, 0.0)
  }

  lemma WonNotional(kind: Kind, x: real, id: string, cap: real, big: real)
    ensures var o, env := Order(kind, x, id), Roomy(cap, big);
            CurrencyOf(o) == "KRW" && Notional(o.qty, o.price, None) == Some(x) && Times(x, env.fx.Ceil("KRW")) == x
            && Bump(env, o, Bare([])) == x
  {
    var o, env := Order(kind, x, id), Roomy(cap, big);
    assert CurrencyOf(o) == "KRW";
    assert Notional(o.qty, o.price, None) == Some(x);
    assert Times(x, env.fx.Ceil("KRW")) == x;
  }

  /** An entry of `x` is judged by the daily cap alone. */
  lemma EntryAdmitted(risk: DailyLoss.RiskState, x: real, id: string, cap: real, big: real)
    requires risk.halt.Active? && 0.0 < x <= big && cap != 0.0
    ensures var env, o := Roomy(cap, big).(risk := Some(risk)), Order(EntryOrder, x, id);
            && (PreCheck(env, o, Bare([])).Ok() <==> risk.used + x <= cap)
            && Bump(env, o, Bare([])) == x && IsLive(o) && !EffectiveExit(o, Bare([]))
  {
    hide Times, Notional, Fx.Ceil, CurrencyOf;
    WonNotional(EntryOrder, x, id, cap, big);
    assert HeldSymbols([]) == {};
  }

  // ----- one order at a time -----

  /** Judging an admitted live order and counting it at once. */
  lemma Round(s: Tally, pid: nat, env: Env, o: Intent, ctx: Context)
    requires pid !in s.pending && IsLive(o) && PreCheck(env.(risk := Some(s.risk)), o, ctx).Ok()
    ensures var t := Next(Next(s, Judged(pid, env, o, ctx)), Counted(pid, true));
            var krw := Bump(env.(risk := Some(s.risk)), o, ctx);
            && t.pending == s.pending && t.risk == s.risk.(used := s.risk.used + krw)
            && t.entries == (if EffectiveExit(o, ctx) then s.entries else s.entries + krw)
  {
    hide PreCheck, EffectiveExit, Bump;
    var u := Next(s, Judged(pid, env, o, ctx));
    assert u.pending - {pid} == s.pending;
  }

  lemma RunTwo(s: Tally, before: seq<Event>, a: Event, b: Event)
    ensures Run(s, before + [a, b]) == Next(Next(Run(s, before), a), b)
    ensures Run(s, before + [a]) == Next(Run(s, before), a)
  {
    hide Next;
    assert (before + [a, b])[..|before| + 1] == before + [a] && (before + [a])[..|before|] == before;
  }

  // ----- an exit and the cap -----

  /** A live order the gate lets through as an exit, whatever the bucket's risk state. */
  predicate LiveExit(env: Env, o: Intent, ctx: Context) {
    IsLive(o) && EffectiveExit(o, ctx) && env.engineActive && GuardReason(env, o).None?
  }

  lemma ExitPasses(env: Env, o: Intent, ctx: Context)
    requires LiveExit(env, o, ctx)
    ensures PreCheck(env, o, ctx).Ok()
  {
  }

  /** Every exit judged is this one, at these rates. */
  ghost predicate OnlyExit(events: seq<Event>, env: Env, o: Intent, ctx: Context) {
    forall e <- events :: IsExit(e) ==> e.env.fx == env.fx && e.order == o && e.ctx == ctx
  }

  predicate IsExit(e: Event) {
    e.Judged? && IsLive(e.order) && EffectiveExit(e.order, e.ctx)
  }

  /** On every day that starts at zero and on which entries do not overlap and this is the only exit, the entries stay
      under the cap. */
  ghost predicate SafeBeside(env: Env, o: Intent, ctx: Context) {
    forall risk: DailyLoss.RiskState, events: seq<Event>, day: string, cap: real ::
      risk.day == Some(day) && risk.used == 0.0 && cap > 0.0 && OneDay(events, day, cap)
      && OneEntryAtATime(Start(risk), events) && OnlyExit(events, env, o, ctx)
      ==> Run(Start(risk), events).entries <= cap
  }

  ghost predicate ExitsAre(s: Tally, krw: real) {
    forall pid <- s.pending :: s.pending[pid].exit ==> s.pending[pid].krw == krw
  }

  lemma {:induction false} PendingExits(risk: DailyLoss.RiskState, events: seq<Event>, env: Env, o: Intent, ctx: Context)
    requires OnlyExit(events, env, o, ctx)
    ensures ExitsAre(Run(Start(risk), events), Bump(env, o, ctx))
  {
    hide PreCheck, EffectiveExit, Bump;
    if events != [] {
      var n := |events| - 1;
      assert events == events[..n] + [events[n]];
      PendingExits(risk, events[..n], env, o, ctx);
      var e := events[n];
      if IsExit(e) {
        BumpNeedsRates(e.env.(risk := Some(Run(Start(risk), events[..n]).risk)), env, o, ctx);
      }
    }
  }

  lemma OnlyExitAdds(risk: DailyLoss.RiskState, events: seq<Event>, env: Env, o: Intent, ctx: Context)
    requires OnlyExit(events, env, o, ctx) && Bump(env, o, ctx) >= 0.0
    ensures ExitsOnlyAdd(Start(risk), events)
  {
    hide Run, Bump, EffectiveExit;
    forall i | 0 <= i < |events| ensures AddsOrEnters(Run(Start(risk), events[..i]), events[i]) {
      assert OnlyExit(events[..i], env, o, ctx);
      PendingExits(risk, events[..i], env, o, ctx);
    }
  }

  // ----- a day with a negative exit -----

  function DayWith(env: Env, o: Intent, ctx: Context, cap: real, second: real): seq<Event> {
    var mine := Roomy(cap, if second > cap then second else cap);
    [Judged(0, mine, Order(EntryOrder, cap, "1"), Bare([])), Counted(0, true),
     Judged(1, env.(dailyCap := cap), o, ctx), Counted(1, true),
     Judged(2, mine, Order(EntryOrder, second, "2"), Bare([])), Counted(2, true)]
  }

  const FRESH := DailyLoss.RiskState(DailyLoss.Active, 0.0, 0.0, 0.0, Some("d"))

  /** After the first entry, after the exit, and at the end of the day. */
  lemma DayRuns(env: Env, o: Intent, ctx: Context, cap: real)
    requires LiveExit(env, o, ctx) && Bump(env, o, ctx) < 0.0 && cap > 0.0
    ensures var events := DayWith(env, o, ctx, cap, -Bump(env, o, ctx));
            && Run(Start(FRESH), events[..2]).pending == map[] && Run(Start(FRESH), events[..4]).pending == map[]
            && Run(Start(FRESH), events).entries == cap - Bump(env, o, ctx)
  {
    hide PreCheck, EffectiveExit, Bump, Next, Run, Roomy, Order, LiveExit;
    var b := Bump(env, o, ctx);
    var events := DayWith(env, o, ctx, cap, -b);
    var mine := Roomy(cap, if -b > cap then -b else cap);
    var out := env.(dailyCap := cap);
    assert events[..2] == [] + [events[0], events[1]];
    assert events[..4] == events[..2] + [events[2], events[3]];
    assert events == events[..4] + [events[4], events[5]];
    EmptyRun(Start(FRESH));
    RunTwo(Start(FRESH), [], events[0], events[1]);
    RunTwo(Start(FRESH), events[..2], events[2], events[3]);
    RunTwo(Start(FRESH), events[..4], events[4], events[5]);
    EntryAdmitted(FRESH, cap, "1", cap, if -b > cap then -b else cap);
    Round(Start(FRESH), 0, mine, Order(EntryOrder, cap, "1"), Bare([]));
    var s := Run(Start(FRESH), events[..2]);
    assert s.risk == FRESH.(used := cap) && s.entries == cap && s.pending == map[];
    ExitFacts(env, o, ctx, cap, s.risk);
    Round(s, 1, out, o, ctx);
    var t := Run(Start(FRESH), events[..4]);
    assert t.risk == FRESH.(used := cap + b) && t.entries == cap && t.pending == map[];
    EntryAdmitted(t.risk, -b, "2", cap, if -b > cap then -b else cap);
    Round(t, 2, mine, Order(EntryOrder, -b, "2"), Bare([]));
  }

  lemma EmptyRun(s: Tally)
    ensures Run(s, []) == s
  {
  }

  lemma ExitFacts(env: Env, o: Intent, ctx: Context, cap: real, risk: DailyLoss.RiskState)
    requires LiveExit(env, o, ctx)
    ensures var now := env.(dailyCap := cap).(risk := Some(risk));
            PreCheck(now, o, ctx).Ok() && Bump(now, o, ctx) == Bump(env, o, ctx) && EffectiveExit(o, ctx) && IsLive(o)
  {
    hide EffectiveExit, Bump, PreCheck;
    var now := env.(dailyCap := cap).(risk := Some(risk));
    assert LiveExit(now, o, ctx);
    ExitPasses(now, o, ctx);
    BumpNeedsRates(now, env, o, ctx);
  }

  lemma DayIsFair(env: Env, o: Intent, ctx: Context, cap: real)
    requires LiveExit(env, o, ctx) && Bump(env, o, ctx) < 0.0 && cap > 0.0
    ensures var events := DayWith(env, o, ctx, cap, -Bump(env, o, ctx));
            && OneDay(events, "d", cap) && OneEntryAtATime(Start(FRESH), events) && OnlyExit(events, env, o, ctx)
  {
    hide PreCheck, EffectiveExit, Bump, Next, Run, Order;
    var events := DayWith(env, o, ctx, cap, -Bump(env, o, ctx));
    DayRuns(env, o, ctx, cap);
    ExitFacts(env, o, ctx, cap, FRESH);
    EmptyRun(Start(FRESH));
    EntriesEnter(cap, "1");
    EntriesEnter(-Bump(env, o, ctx), "2");
    forall i | 0 <= i < |events| ensures AloneIfEntry(Run(Start(FRESH), events[..i]), events[i]) {
      assert events[..0] == [];
      assert i == 0 || i == 1 || i == 2 || i == 3 || i == 4 || i == 5;
    }
  }

  lemma EntriesEnter(x: real, id: string)
    ensures !EffectiveExit(Order(EntryOrder, x, id), Bare([]))
  {
  }

  /** A live exit with a negative notional, and any cap: a day on which it is the only exit and no entries overlap, and
      whose entries exceed the cap by what the exit took off the counter. */
  lemma NegativeExitLiftsCap(env: Env, o: Intent, ctx: Context, cap: real)
    requires LiveExit(env, o, ctx) && Bump(env, o, ctx) < 0.0 && cap > 0.0
    ensures exists events: seq<Event>, risk: DailyLoss.RiskState ::
      && risk.day == Some("d") && risk.used == 0.0 && OneDay(events, "d", cap)
      && OneEntryAtATime(Start(risk), events) && OnlyExit(events, env, o, ctx)
      && Run(Start(risk), events).entries == cap - Bump(env, o, ctx)
  {
    hide Run, Bump, OneDay, OneEntryAtATime, OnlyExit, LiveExit, DayWith;
    DayRuns(env, o, ctx, cap);
    DayIsFair(env, o, ctx, cap);
    var events := DayWith(env, o, ctx, cap, -Bump(env, o, ctx));
    assert FRESH.day == Some("d") && FRESH.used == 0.0;
    assert Run(Start(FRESH), events).entries == cap - Bump(env, o, ctx);
  }

  /** A live exit leaves the cap intact, whatever entries come with it, if and only if its notional is not negative. */
  lemma ExitSafeIff(env: Env, o: Intent, ctx: Context)
    requires LiveExit(env, o, ctx)
    ensures SafeBeside(env, o, ctx) <==> Bump(env, o, ctx) >= 0.0
  {
    hide Run, Bump, OneDay, OneEntryAtATime, OnlyExit, LiveExit;
    if Bump(env, o, ctx) >= 0.0 {
      forall risk: DailyLoss.RiskState, events: seq<Event>, day: string, cap: real |
        risk.day == Some(day) && risk.used == 0.0 && cap > 0.0 && OneDay(events, day, cap)
        && OneEntryAtATime(Start(risk), events) && OnlyExit(events, env, o, ctx)
        ensures Run(Start(risk), events).entries <= cap
      {
        OnlyExitAdds(risk, events, env, o, ctx);
        EntriesStayUnderCap(risk, events, day, cap);
      }
    } else {
      NegativeExitLiftsCap(env, o, ctx, 1.0);
      assert !SafeBeside(env, o, ctx);
    }
  }

  const HELD := [Position("A", 100.0, Some("korea_stock"), Some("KRW"), Some(Long), 1.0)]

  /** Such an exit: one share sold at minus one hundred, which nothing rejects. */
  lemma NegativeExitExists()
    ensures LiveExit(Roomy(100.0, 100.0), Order(ExitOrder, -100.0, "x"), Bare(HELD))
    ensures Bump(Roomy(100.0, 100.0), Order(ExitOrder, -100.0, "x"), Bare(HELD)) == -100.0
  {
    hide Times, Notional, Fx.Ceil, CurrencyOf;
    WonNotional(ExitOrder, -100.0, "x", 100.0, 100.0);
    assert Holding(HELD, "A") == Some(HELD[0]);
  }

  /** The day it makes: under a cap of one hundred the entries come to two hundred. */
  lemma TwiceTheCap()
    ensures exists events: seq<Event> ::
      OneDay(events, "d", 100.0) && OneEntryAtATime(Start(FRESH), events) && Run(Start(FRESH), events).entries == 200.0
  {
    hide Run, Bump, OneDay, OneEntryAtATime, OnlyExit, LiveExit, DayWith;
    var env, o := Roomy(100.0, 100.0), Order(ExitOrder, -100.0, "x");
    NegativeExitExists();
    DayRuns(env, o, Bare(HELD), 100.0);
    DayIsFair(env, o, Bare(HELD), 100.0);
    assert Run(Start(FRESH), DayWith(env, o, Bare(HELD), 100.0, 100.0)).entries == 200.0;
  }

  // ----- two entries that overlap -----

  function Overlapping(a: Event, b: Event): seq<Event>
    requires a.Judged? && b.Judged?
  {
    [a, b, Counted(a.pid, true), Counted(b.pid, true)]
  }

  /** Two live entries judged on the same counter: counted, they add up, and the later one is late by exactly the other;
      whatever the broker answers, they stay within a limit if and only if their positive notionals do together. */
  lemma TwoAtOnce(risk: DailyLoss.RiskState, a: Event, b: Event, cap: real)
    requires a.Judged? && b.Judged? && a.pid != b.pid && IsEntry(a) && IsEntry(b)
    requires PreCheck(a.env.(risk := Some(risk)), a.order, a.ctx).Ok()
    requires PreCheck(b.env.(risk := Some(risk)), b.order, b.ctx).Ok()
    ensures var x, y := Bump(a.env, a.order, a.ctx), Bump(b.env, b.order, b.ctx);
            var t := Run(Start(risk), Overlapping(a, b));
            && t.entries == x + y && t.late == x && t.risk.used == risk.used + x + y
            && (SafeToCount(Run(Start(risk), [a, b]), cap) <==> Positive(x) + Positive(y) <= cap)
  {
    hide PreCheck, EffectiveExit, Bump, Run, Committed, SafeToCount, Positive;
    BumpNeedsRates(a.env.(risk := Some(risk)), a.env, a.order, a.ctx);
    BumpNeedsRates(b.env.(risk := Some(risk)), b.env, b.order, b.ctx);
    assert [] + [a, b] == [a, b] && [a, b] + [Counted(a.pid, true), Counted(b.pid, true)] == Overlapping(a, b);
    EmptyRun(Start(risk));
    RunTwo(Start(risk), [], a, b);
    RunTwo(Start(risk), [a, b], Counted(a.pid, true), Counted(b.pid, true));
    StartsEmpty(risk);
    NextCommits(Start(risk), a);
    NextCommits(Next(Start(risk), a), b);
    CountingSafeIff(Run(Start(risk), [a, b]), cap);
  }

  /** Two entries of one hundred under a cap of one hundred. */
  lemma TwoAtOnceExceedCap()
    ensures exists events: seq<Event> :: OneDay(events, "d", 100.0) && Run(Start(FRESH), events).entries == 200.0
  {
    hide PreCheck, EffectiveExit, Bump, Run, Next;
    var a := Judged(0, Roomy(100.0, 100.0), Order(EntryOrder, 100.0, "1"), Bare([]));
    var b := Judged(1, Roomy(100.0, 100.0), Order(EntryOrder, 100.0, "2"), Bare([]));
    EntryAdmitted(FRESH, 100.0, "1", 100.0, 100.0);
    EntryAdmitted(FRESH, 100.0, "2", 100.0, 100.0);
    BumpNeedsRates(a.env.(risk := Some(FRESH)), a.env, a.order, a.ctx);
    BumpNeedsRates(b.env.(risk := Some(FRESH)), b.env, b.order, b.ctx);
    TwoAtOnce(FRESH, a, b, 100.0);
    assert OneDay(Overlapping(a, b), "d", 100.0);
  }
}
