/** The daily cap on live notional: step 4'' of the gate together with `_bump_daily_notional`
    (server/app/services/order_service.py), over the orders of a trading day. An order is judged in one step and, if
    the broker accepts it, counted in a later one; other orders may be judged and counted in between. */
module DailyCap {
  import DailyLoss
  import GateExact
  import opened RiskGate
  import opened Wrappers

  /** What `_bump_daily_notional` adds for an accepted order. */
  function Bump(env: Env, o: Intent, ctx: Context): real {
    if !IsLive(o) then 0.0 else NotionalKrw(env, o, Notional(o.qty, o.price, ctx.multiplier)).GetOr(0.0)
  }

  /** That is the size of a live order in won, at the raised rate, when it has a price and a known currency. */
  lemma BumpIs(env: Env, o: Intent, ctx: Context)
    ensures Bump(env, o, ctx)
         == if GateExact.Live(o) && o.price.Some? && GateExact.Convertible(env.fx, GateExact.Currency(o))
            then GateExact.Krw(env, o, ctx) else 0.0
  {
    hide Notional, Times, GateExact.Size, GateExact.Krw, Fx.Ceil;
    GateExact.Conversions(env, o, ctx);
  }

  /** What happens between two resets. `Judged` is the gate's check in the `place` call `pid`; `Counted` is the end of
      that call, `accepted` when the key was new and the broker took the order. */
  datatype Event =
    | Judged(pid: nat, env: Env, order: Intent, ctx: Context)
    | Counted(pid: nat, accepted: bool)
    | Evaluated(t: DailyLoss.Tick, lim: DailyLoss.LossLimits)

  /** A live order the gate let through: its notional, and the entries and exits counted when it was judged. */
  datatype Pending = Pending(krw: real, exit: bool, entriesSeen: real, exitsSeen: real)

  /** The risk row; the orders judged and not yet counted; the notional of the entries and exits counted so far. For
      the last entry counted, `late` is the notional of the entries counted while it was on its way, and `exitsSeen`
      that of the exits counted when it was judged. */
  datatype Tally = Tally(risk: DailyLoss.RiskState, pending: map<nat, Pending>, entries: real, exits: real,
                         entered: bool, late: real, exitsSeen: real)

  function Judge(s: Tally, pid: nat, env: Env, o: Intent, ctx: Context): Tally {
    var now := env.(risk := Some(s.risk));
    if pid in s.pending || !IsLive(o) || !PreCheck(now, o, ctx).Ok() then s
    else s.(pending := s.pending[pid := Pending(Bump(now, o, ctx), EffectiveExit(o, ctx), s.entries, s.exits)])
  }

  function Count(s: Tally, pid: nat, accepted: bool): Tally {
    if pid !in s.pending then s
    else
      var p, rest := s.pending[pid], s.pending - {pid};
      var risk := DailyLoss.AddUsed(Some(s.risk), p.krw).GetOr(s.risk);
      if !accepted then s.(pending := rest)
      else if p.exit then s.(risk := risk, pending := rest, exits := s.exits + p.krw)
      else Tally(risk, rest, s.entries + p.krw, s.exits, true, s.entries - p.entriesSeen, p.exitsSeen)
  }

  function Next(s: Tally, e: Event): Tally {
    match e
    case Judged(pid, env, o, ctx) => Judge(s, pid, env, o, ctx)
    case Counted(pid, accepted) => Count(s, pid, accepted)
    case Evaluated(t, lim) => s.(risk := DailyLoss.Evaluate(Some(s.risk), t, lim).0)
  }

  function Run(s: Tally, events: seq<Event>): Tally {
    if events == [] then s else Next(Run(s, events[..|events| - 1]), events[|events| - 1])
  }

  function Start(risk: DailyLoss.RiskState): Tally {
    Tally(risk, map[], 0.0, 0.0, false, 0.0, 0.0)
  }

  predicate OfDay(e: Event, day: string, cap: real) {
    match e
    case Judged(_, env, _, _) => env.dailyCap == cap
    case Counted(_, _) => true
    case Evaluated(t, _) => t.today == day
  }

  /** No evaluation starts a new day, and the cap is `cap` throughout. */
  ghost predicate OneDay(events: seq<Event>, day: string, cap: real) {
    forall e <- events :: OfDay(e, day, cap)
  }

  // ----- what holds for every run -----

  ghost predicate Balanced(s: Tally, used: real, day: string, cap: real) {
    && s.risk.day == Some(day)
    && s.risk.used == used + s.entries + s.exits
    && (forall pid <- s.pending :: !s.pending[pid].exit ==>
          used + s.pending[pid].entriesSeen + s.pending[pid].exitsSeen + s.pending[pid].krw <= cap)
    && (s.entered ==> used + s.entries + s.exitsSeen <= cap + s.late)
    && (!s.entered ==> s.entries == 0.0)
  }

  /** A live entry the gate admits fits under the cap together with what was used. */
  lemma AdmittedFits(env: Env, o: Intent, ctx: Context)
    requires IsLive(o) && env.dailyCap != 0.0 && !EffectiveExit(o, ctx) && PreCheck(env, o, ctx).Ok()
    ensures Used(env) + Bump(env, o, ctx) <= env.dailyCap
  {
    hide Notional, WeightRejects, CountRejects, OrderableRejects, Warns, EffectiveExit, HaltReason, Times;
  }

  lemma NextBalanced(s: Tally, e: Event, used: real, day: string, cap: real)
    requires Balanced(s, used, day, cap) && cap != 0.0 && OfDay(e, day, cap)
    ensures Balanced(Next(s, e), used, day, cap)
  {
    hide PreCheck, EffectiveExit, Bump, DailyLoss.Breach;
    match e
    case Judged(pid, env, o, ctx) =>
      var now := env.(risk := Some(s.risk));
      if IsLive(o) && PreCheck(now, o, ctx).Ok() && !EffectiveExit(o, ctx) {
        AdmittedFits(now, o, ctx);
      }
    case _ =>
  }

  /** Over any run of a day, however the orders overlap: the counter is what it started at plus all counted notional;
      and the entries, with the exits counted before the last of them was judged, exceed the cap by at most the entries
      that were counted while it was on its way. */
  lemma {:induction false} DayBalanced(risk: DailyLoss.RiskState, events: seq<Event>, day: string, cap: real)
    requires risk.day == Some(day) && cap != 0.0 && OneDay(events, day, cap)
    ensures Balanced(Run(Start(risk), events), risk.used, day, cap)
  {
    hide Next;
    if events != [] {
      var n := |events| - 1;
      assert events == events[..n] + [events[n]];
      DayBalanced(risk, events[..n], day, cap);
      NextBalanced(Run(Start(risk), events[..n]), events[n], risk.used, day, cap);
    }
  }

  // ----- when the cap holds -----

  /** No exit that was counted took anything off the counter. */
  ghost predicate ExitsOnlyAdd(s: Tally, events: seq<Event>) {
    forall i :: 0 <= i < |events| ==> AddsOrEnters(Run(s, events[..i]), events[i])
  }

  predicate AddsOrEnters(s: Tally, e: Event) {
    e.Counted? && e.accepted && e.pid in s.pending && s.pending[e.pid].exit ==> s.pending[e.pid].krw >= 0.0
  }

  predicate EntryPending(s: Tally) {
    exists pid :: pid in s.pending && !s.pending[pid].exit
  }

  predicate IsEntry(e: Event) {
    e.Judged? && IsLive(e.order) && !EffectiveExit(e.order, e.ctx)
  }

  /** No live entry is judged while another is on its way. */
  ghost predicate OneEntryAtATime(s: Tally, events: seq<Event>) {
    forall i :: 0 <= i < |events| ==> AloneIfEntry(Run(s, events[..i]), events[i])
  }

  predicate AloneIfEntry(s: Tally, e: Event) {
    IsEntry(e) ==> !EntryPending(s)
  }

  lemma PrefixConditions(s: Tally, events: seq<Event>)
    requires events != []
    ensures var n := |events| - 1;
            && (ExitsOnlyAdd(s, events) ==> ExitsOnlyAdd(s, events[..n]) && AddsOrEnters(Run(s, events[..n]), events[n]))
            && (OneEntryAtATime(s, events) ==>
                  OneEntryAtATime(s, events[..n]) && AloneIfEntry(Run(s, events[..n]), events[n]))
  {
    hide Run, AddsOrEnters, AloneIfEntry;
    var rest := events[..|events| - 1];
    forall i | 0 <= i < |rest|
      ensures ExitsOnlyAdd(s, events) ==> AddsOrEnters(Run(s, rest[..i]), rest[i])
      ensures OneEntryAtATime(s, events) ==> AloneIfEntry(Run(s, rest[..i]), rest[i])
    {
      assert rest[..i] == events[..i] && rest[i] == events[i];
    }
  }

  ghost predicate ExitsNonnegative(s: Tally) {
    s.exits >= 0.0 && s.exitsSeen >= 0.0 && forall pid <- s.pending :: s.pending[pid].exitsSeen >= 0.0
  }

  lemma {:induction false} ExitsNeverNegative(risk: DailyLoss.RiskState, events: seq<Event>)
    requires ExitsOnlyAdd(Start(risk), events)
    ensures ExitsNonnegative(Run(Start(risk), events))
  {
    hide PreCheck, EffectiveExit, Bump, ExitsOnlyAdd;
    if events != [] {
      PrefixConditions(Start(risk), events);
      ExitsNeverNegative(risk, events[..|events| - 1]);
    }
  }

  ghost predicate Unhurried(s: Tally) {
    && s.late == 0.0
    && (forall p <- s.pending, q <- s.pending :: !s.pending[p].exit && !s.pending[q].exit ==> p == q)
    && (forall p <- s.pending :: !s.pending[p].exit ==> s.pending[p].entriesSeen == s.entries)
  }

  lemma {:induction false} NeverLate(risk: DailyLoss.RiskState, events: seq<Event>)
    requires OneEntryAtATime(Start(risk), events)
    ensures Unhurried(Run(Start(risk), events))
  {
    hide PreCheck, EffectiveExit, Bump, OneEntryAtATime, Next, Unhurried;
    if events == [] {
      StartUnhurried(risk);
    } else {
      PrefixConditions(Start(risk), events);
      NeverLate(risk, events[..|events| - 1]);
      StepUnhurried(Run(Start(risk), events[..|events| - 1]), events[|events| - 1]);
    }
  }

  lemma StartUnhurried(risk: DailyLoss.RiskState)
    ensures Unhurried(Start(risk))
  {
  }

  lemma StepUnhurried(s: Tally, e: Event)
    requires Unhurried(s) && AloneIfEntry(s, e)
    ensures Unhurried(Next(s, e))
  {
    hide PreCheck, EffectiveExit, Bump, DailyLoss.Evaluate;
  }

  /** Counted entries exceed the cap by at most those counted while the last one was on its way, as long as no counted
      exit has a negative notional. */
  lemma EntriesWithinLate(risk: DailyLoss.RiskState, events: seq<Event>, day: string, cap: real)
    requires risk.day == Some(day) && risk.used == 0.0 && cap > 0.0 && OneDay(events, day, cap)
    requires ExitsOnlyAdd(Start(risk), events)
    ensures var t := Run(Start(risk), events); if t.entered then t.entries <= cap + t.late else t.entries == 0.0
  {
    hide OneDay, Run, ExitsOnlyAdd;
    DayBalanced(risk, events, day, cap);
    ExitsNeverNegative(risk, events);
  }

  /** The day's live entries sum to at most the cap, although exits move the same counter unchecked, when no two
      entries overlap and no counted exit has a negative notional. */
  lemma EntriesStayUnderCap(risk: DailyLoss.RiskState, events: seq<Event>, day: string, cap: real)
    requires risk.day == Some(day) && risk.used == 0.0 && cap > 0.0 && OneDay(events, day, cap)
    requires ExitsOnlyAdd(Start(risk), events) && OneEntryAtATime(Start(risk), events)
    ensures Run(Start(risk), events).entries <= cap
  {
    hide OneDay, Run, ExitsOnlyAdd, OneEntryAtATime;
    EntriesWithinLate(risk, events, day, cap);
    NeverLate(risk, events);
  }
}
