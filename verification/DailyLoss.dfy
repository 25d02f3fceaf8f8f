/** The daily-loss latch of a bucket (server/app/risk/daily_loss.py) on its `risk_state` row. */
module DailyLoss {
  import opened Wrappers

  datatype Halt = Active | DailyHalt | Killed

  datatype RiskState = RiskState(halt: Halt, realized: real, unrealized: real, used: real, day: Option<string>)

  datatype LossLimits = LossLimits(realized: real, eval: real)

  /** What the aggregator reports at one moment of a trading day. */
  datatype Tick = Tick(realized: real, unrealized: real, today: string)

  function Loss(x: real): real {
    if x > 0.0 then x else 0.0
  }

  /** The losses since the baseline reach a limit. */
  predicate Breach(s: RiskState, t: Tick, lim: LossLimits) {
    || Loss(s.realized - t.realized) >= lim.realized
    || Loss((s.realized - t.realized) + (s.unrealized - t.unrealized)) >= lim.eval
  }

  predicate NewDay(row: Option<RiskState>, t: Tick) {
    row.None? || row.value.day != Some(t.today)
  }

  /** The row after `evaluate`; the flag says whether the halt event was emitted. */
  function Evaluate(row: Option<RiskState>, t: Tick, lim: LossLimits): (RiskState, bool) {
    if NewDay(row, t) then
      (RiskState(if row.Some? && row.value.halt.Killed? then Killed else Active, t.realized, t.unrealized, 0.0,
                 Some(t.today)), false)
    else
      var s := row.value;
      if s.halt.Active? && Breach(s, t, lim) then (s.(halt := DailyHalt), true) else (s, false)
  }

  /** `add_daily_notional_used`. */
  function AddUsed(row: Option<RiskState>, delta: real): Option<RiskState> {
    if delta == 0.0 then row
    else if row.None? then Some(RiskState(Active, 0.0, 0.0, delta, None))
    else Some(row.value.(used := row.value.used + delta))
  }

  /** Orders add what they are worth to the notional of the day and touch nothing else; a first one opens the row. */
  lemma UsedAddsUp(row: Option<RiskState>, delta: real)
    ensures row.Some? ==> AddUsed(row, delta) == Some(row.value.(used := row.value.used + delta))
    ensures row.None? && delta != 0.0 ==>
              AddUsed(row, delta).Some? && AddUsed(row, delta).value.used == delta
              && AddUsed(row, delta).value.halt.Active? && AddUsed(row, delta).value.day.None?
    ensures row.None? && delta == 0.0 ==> AddUsed(row, delta).None?
  {
  }

  // ----- the limits in numbers -----

  /** Since the baseline of `s` realised fell by the realised limit or more, or realised and unrealised together by the
      other one; a limit that is not positive is reached by anything. */
  ghost predicate FellTooFar(s: RiskState, t: Tick, lim: LossLimits) {
    || lim.realized <= 0.0 || lim.eval <= 0.0
    || t.realized <= s.realized - lim.realized
    || t.realized + t.unrealized <= s.realized + s.unrealized - lim.eval
  }

  /** Within its day an active bucket is halted by an evaluation, with one event, if and only if it fell too far. */
  lemma HaltsIff(s: RiskState, t: Tick, lim: LossLimits)
    requires s.day == Some(t.today)
    ensures var (after, event) := Evaluate(Some(s), t, lim);
            && (event <==> s.halt.Active? && FellTooFar(s, t, lim))
            && after == if event then s.(halt := DailyHalt) else s
  {
  }

  /** With positive limits: at or above the baseline in both figures nothing halts, and whatever halts at one figure
      halts at every lower one. */
  lemma LowerHaltsSooner(s: RiskState, t: Tick, lower: Tick, lim: LossLimits)
    requires s.day == Some(t.today) == Some(lower.today) && lim.realized > 0.0 && lim.eval > 0.0
    ensures t.realized >= s.realized && t.realized + t.unrealized >= s.realized + s.unrealized ==>
              Evaluate(Some(s), t, lim) == (s, false)
    ensures lower.realized <= t.realized && lower.unrealized <= t.unrealized && Evaluate(Some(s), t, lim).1 ==>
              Evaluate(Some(s), lower, lim).1
  {
    HaltsIff(s, t, lim);
    HaltsIff(s, lower, lim);
  }

  class DailyLossMonitor {
    var row: Option<RiskState>
    /** Halt events emitted so far. */
    var halts: nat

    constructor (row: Option<RiskState>)
      ensures this.row == row && halts == 0
    {
      this.row := row;
      halts := 0;
    }

    method EvaluateTick(t: Tick, lim: LossLimits) returns (budget: real, reset: bool)
      modifies this
      ensures row == Some(Evaluate(old(row), t, lim).0)
      ensures halts == old(halts) + if Evaluate(old(row), t, lim).1 then 1 else 0
      ensures reset <==> old(row).None? || old(row).value.day != Some(t.today)
      ensures reset ==> budget == lim.eval && halts == old(halts)
      ensures !reset ==>
        var s := old(row).value;
        var fall := s.realized + s.unrealized - (t.realized + t.unrealized);
        && halts == old(halts) + (if s.halt.Active? && FellTooFar(s, t, lim) then 1 else 0)
        && row == Some(if s.halt.Active? && FellTooFar(s, t, lim) then s.(halt := DailyHalt) else s)
        && budget == if fall <= 0.0 then (if lim.eval <= 0.0 then 0.0 else lim.eval)
                     else if lim.eval <= fall then 0.0 else lim.eval - fall
    {
      if row.None? || row.value.day != Some(t.today) {
        var next := if row.Some? && row.value.halt.Killed? then Killed else Active;
        row := Some(RiskState(next, t.realized, t.unrealized, 0.0, Some(t.today)));
        return lim.eval, true;
      }
      var s := row.value;
      var realizedLoss := Loss(s.realized - t.realized);
      var evalLoss := Loss((s.realized - t.realized) + (s.unrealized - t.unrealized));
      if s.halt.Active? && (realizedLoss >= lim.realized || evalLoss >= lim.eval) {
        row := Some(s.(halt := DailyHalt));
        halts := halts + 1;
      }
      return Loss(lim.eval - evalLoss), false;
    }
  }

  // ----- runs within one trading day -----

  /** What happens to the row between two day resets: evaluations of that day, and orders adding to the notional. */
  datatype Event = Evaluated(t: Tick) | Bumped(delta: real)

  function Run(row: RiskState, events: seq<Event>, lim: LossLimits): (RiskState, nat) {
    if events == [] then (row, 0)
    else
      var (before, n) := Run(row, events[..|events| - 1], lim);
      match events[|events| - 1]
      case Evaluated(t) =>
        var (after, halted) := Evaluate(Some(before), t, lim);
        (after, n + if halted then 1 else 0)
      case Bumped(delta) => (AddUsed(Some(before), delta).GetOr(before), n)
  }

  ghost predicate SameDay(events: seq<Event>, day: string) {
    forall e <- events :: e.Evaluated? ==> e.t.today == day
  }

  ghost predicate SomeBreach(row: RiskState, events: seq<Event>, lim: LossLimits) {
    exists e :: e in events && e.Evaluated? && FellTooFar(row, e.t, lim)
  }

  /** Within a trading day the baseline never moves. An active bucket is halted exactly when some evaluation found it
      fallen too far below that one baseline, and then exactly one halt event was emitted; a halted or killed bucket
      stays so and emits nothing. */
  lemma {:induction false} DayOutcome(row: RiskState, events: seq<Event>, lim: LossLimits, day: string)
    requires row.day == Some(day) && SameDay(events, day)
    ensures var (end, halts) := Run(row, events, lim);
            && end.day == row.day && end.realized == row.realized && end.unrealized == row.unrealized
            && (row.halt.Active? ==>
                  && halts == (if SomeBreach(row, events, lim) then 1 else 0)
                  && end.halt == if SomeBreach(row, events, lim) then DailyHalt else Active)
            && (!row.halt.Active? ==> halts == 0 && end.halt == row.halt)
  {
    if events != [] {
      var n := |events| - 1;
      var last := events[n];
      DayOutcome(row, events[..n], lim, day);
      assert events == events[..n] + [last];
      assert SomeBreach(row, events, lim)
        <==> SomeBreach(row, events[..n], lim) || (last.Evaluated? && FellTooFar(row, last.t, lim)) by {
        if SomeBreach(row, events[..n], lim) {
          var e :| e in events[..n] && e.Evaluated? && FellTooFar(row, e.t, lim);
          assert e in events;
        }
        assert last in events;
      }
      if last.Evaluated? {
        HaltsIff(Run(row, events[..n], lim).0, last.t, lim);
      }
    }
  }

  /** A new day clears the daily latch, takes a new baseline and starts the notional at zero; only a killed bucket
      stays blocked. */
  lemma NewDayClears(row: Option<RiskState>, t: Tick, lim: LossLimits)
    requires row.None? || row.value.day != Some(t.today)
    ensures var (after, halted) := Evaluate(row, t, lim);
            && !halted && after.day == Some(t.today) && after.used == 0.0
            && after.realized == t.realized && after.unrealized == t.unrealized
            && (after.halt.Killed? <==> row.Some? && row.value.halt.Killed?) && !after.halt.DailyHalt?
            && Evaluate(Some(after), t, lim).1 == (after.halt.Active? && (0.0 >= lim.realized || 0.0 >= lim.eval))
  {
  }
}
