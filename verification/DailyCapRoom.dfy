/** Exactly when entries that overlap stay under the daily cap, however many they are. */
module DailyCapRoom {
  import opened DailyCap
  import DailyLoss
  import opened RiskGate
  import opened Wrappers

  // ----- what pending orders can still add -----

  function Positive(krw: real): real {
    if krw > 0.0 then krw else 0.0
  }

  /** The most a pending order can add to the entries. */
  function Share(p: Pending): real {
    if p.exit then 0.0 else Positive(p.krw)
  }

  ghost function Reserved(pending: map<nat, Pending>): (r: real)
    ensures r >= 0.0
  {
    if pending == map[] then 0.0
    else
      var pid :| pid in pending;
      Share(pending[pid]) + Reserved(pending - {pid})
  }

  ghost function Committed(s: Tally): real {
    s.entries + Reserved(s.pending)
  }

  lemma {:induction false} ReservedWithout(pending: map<nat, Pending>, pid: nat)
    requires pid in pending
    ensures Reserved(pending) == Share(pending[pid]) + Reserved(pending - {pid})
  {
    hide Share;
    var first :| first in pending && Reserved(pending) == Share(pending[first]) + Reserved(pending - {first});
    if first != pid {
      ReservedWithout(pending - {first}, pid);
      ReservedWithout(pending - {pid}, first);
      assert pending - {first} - {pid} == pending - {pid} - {first};
    }
  }

  // ----- counting what is pending -----

  ghost predicate OnlyCounts(events: seq<Event>) {
    forall e <- events :: e.Counted?
  }

  /** However the pending orders end, the entries stay within the cap. */
  ghost predicate SafeToCount(s: Tally, cap: real) {
    forall events: seq<Event> :: OnlyCounts(events) ==> Run(s, events).entries <= cap
  }

  lemma CountCommits(s: Tally, pid: nat, accepted: bool)
    ensures Committed(Count(s, pid, accepted)) <= Committed(s)
    ensures pid in s.pending && accepted == (s.pending[pid].krw > 0.0)
            ==> Committed(Count(s, pid, accepted)) == Committed(s)
    ensures Count(s, pid, accepted).pending == s.pending - {pid}
  {
    hide Reserved;
    if pid in s.pending {
      ReservedWithout(s.pending, pid);
    } else {
      assert s.pending - {pid} == s.pending;
    }
  }

  lemma {:induction false} CountsOnlySpend(s: Tally, events: seq<Event>)
    requires OnlyCounts(events)
    ensures Committed(Run(s, events)) <= Committed(s)
  {
    hide Committed, Count;
    if events != [] {
      var n := |events| - 1;
      CountsOnlySpend(s, events[..n]);
      assert events[n] in events;
      CountCommits(Run(s, events[..n]), events[n].pid, events[n].accepted);
    }
  }

  lemma {:induction false} RunFront(s: Tally, e: Event, rest: seq<Event>)
    ensures Run(s, [e] + rest) == Run(Next(s, e), rest)
    decreases |rest|
  {
    hide Next;
    var all := [e] + rest;
    if rest == [] {
      assert all[..0] == [] && Run(s, all[..0]) == s && all == [e];
    } else {
      assert all[..|all| - 1] == [e] + rest[..|rest| - 1];
      RunFront(s, e, rest[..|rest| - 1]);
    }
  }

  /** The worst end: every pending entry of positive notional is accepted, nothing else is. */
  lemma {:induction false} WorstEnd(s: Tally)
    ensures exists events: seq<Event> :: OnlyCounts(events) && Run(s, events).entries == Committed(s)
    decreases |s.pending|
  {
    hide Count;
    if s.pending == map[] {
      assert OnlyCounts([]) && Run(s, []) == s;
    } else {
      var pid :| pid in s.pending;
      var e := Counted(pid, s.pending[pid].krw > 0.0);
      CountCommits(s, pid, e.accepted);
      assert pid in s.pending && pid !in s.pending - {pid};
      Smaller(s.pending, pid);
      WorstEnd(Next(s, e));
      var rest: seq<Event> :| OnlyCounts(rest) && Run(Next(s, e), rest).entries == Committed(Next(s, e));
      RunFront(s, e, rest);
      assert OnlyCounts([e] + rest);
    }
  }

  lemma Smaller(pending: map<nat, Pending>, pid: nat)
    requires pid in pending
    ensures |pending - {pid}| < |pending|
  {
    assert pending == (pending - {pid})[pid := pending[pid]];
  }

  /** Whatever is pending, its counting keeps the entries within the cap if and only if those counted and the positive
      notionals of those pending fit together. */
  lemma CountingSafeIff(s: Tally, cap: real)
    ensures SafeToCount(s, cap) <==> Committed(s) <= cap
  {
    hide Run, Reserved, OnlyCounts;
    forall events: seq<Event> | OnlyCounts(events) ensures Run(s, events).entries <= Committed(s) {
      CountsOnlySpend(s, events);
    }
    WorstEnd(s);
  }

  // ----- a whole day -----

  /** `e` is a live entry that the gate lets through. */
  predicate Admits(s: Tally, e: Event) {
    && IsEntry(e) && e.pid !in s.pending
    && PreCheck(e.env.(risk := Some(s.risk)), e.order, e.ctx).Ok()
  }

  /** What can be asked before letting `e` through: is there room for it beside all that is counted and pending? */
  ghost predicate FindsRoom(s: Tally, e: Event, cap: real) {
    Admits(s, e) ==> Committed(s) + Positive(Bump(e.env, e.order, e.ctx)) <= cap
  }

  lemma BumpNeedsRates(env: Env, other: Env, o: Intent, ctx: Context)
    requires env.fx == other.fx
    ensures Bump(env, o, ctx) == Bump(other, o, ctx)
  {
    hide Times, Notional, CurrencyOf, Fx.Ceil, Fx.Supports;
  }

  lemma NextCommits(s: Tally, e: Event)
    ensures if Admits(s, e) then Committed(Next(s, e)) == Committed(s) + Positive(Bump(e.env, e.order, e.ctx))
            else Committed(Next(s, e)) <= Committed(s)
  {
    hide PreCheck, EffectiveExit, Bump, Reserved, Count, DailyLoss.Evaluate;
    match e
    case Judged(pid, env, o, ctx) =>
      BumpNeedsRates(env.(risk := Some(s.risk)), env, o, ctx);
      var t := Next(s, e);
      if t != s {
        ReservedWithout(t.pending, pid);
        assert t.pending - {pid} == s.pending;
      }
    case Counted(pid, accepted) => CountCommits(s, pid, accepted);
    case Evaluated(_, _) =>
  }

  ghost predicate AllFindRoom(s: Tally, events: seq<Event>, cap: real) {
    forall i :: 0 <= i < |events| ==> FindsRoom(Run(s, events[..i]), events[i], cap)
  }

  /** At every moment of the run, whatever the broker answers to what is pending, the entries stay within the cap. */
  ghost predicate AlwaysSafe(s: Tally, events: seq<Event>, cap: real) {
    forall i :: 0 <= i <= |events| ==> SafeToCount(Run(s, events[..i]), cap)
  }

  lemma {:induction false} RoomKeepsCommitted(s: Tally, events: seq<Event>, cap: real)
    requires Committed(s) <= cap && AllFindRoom(s, events, cap)
    ensures Committed(Run(s, events)) <= cap
  {
    hide Committed, Next, Admits, Bump;
    if events != [] {
      var n := |events| - 1;
      forall i | 0 <= i < n ensures FindsRoom(Run(s, events[..n][..i]), events[..n][i], cap) {
        assert events[..n][..i] == events[..i];
      }
      RoomKeepsCommitted(s, events[..n], cap);
      assert FindsRoom(Run(s, events[..n]), events[n], cap);
      NextCommits(Run(s, events[..n]), events[n]);
    }
  }

  lemma SafeStepFindsRoom(s: Tally, e: Event, cap: real)
    requires SafeToCount(Next(s, e), cap)
    ensures FindsRoom(s, e, cap)
  {
    hide Next, Admits, Bump, Committed, SafeToCount;
    CountingSafeIff(Next(s, e), cap);
    NextCommits(s, e);
  }

  /** However many entries overlap, a day keeps them within the cap, whatever the broker answers and when, if and only
      if every entry let through finds room beside all that is counted and pending. */
  lemma CapHoldsIff(risk: DailyLoss.RiskState, events: seq<Event>, cap: real)
    requires cap >= 0.0
    ensures AlwaysSafe(Start(risk), events, cap) <==> AllFindRoom(Start(risk), events, cap)
  {
    hide FindsRoom, SafeToCount, Committed, Next;
    var s := Start(risk);
    StartsEmpty(risk);
    if AlwaysSafe(s, events, cap) {
      forall i | 0 <= i < |events| ensures FindsRoom(Run(s, events[..i]), events[i], cap) {
        assert events[..i + 1][..i] == events[..i];
        assert SafeToCount(Run(s, events[..i + 1]), cap);
        SafeStepFindsRoom(Run(s, events[..i]), events[i], cap);
      }
    }
    if AllFindRoom(s, events, cap) {
      forall i | 0 <= i <= |events| ensures SafeToCount(Run(s, events[..i]), cap) {
        PrefixFindsRoom(s, events, i, cap);
        RoomKeepsCommitted(s, events[..i], cap);
        CountingSafeIff(Run(s, events[..i]), cap);
      }
    }
  }

  lemma StartsEmpty(risk: DailyLoss.RiskState)
    ensures Committed(Start(risk)) == 0.0
  {
  }

  lemma PrefixFindsRoom(s: Tally, events: seq<Event>, n: nat, cap: real)
    requires n <= |events| && AllFindRoom(s, events, cap)
    ensures AllFindRoom(s, events[..n], cap)
  {
    hide FindsRoom, Run;
    forall i | 0 <= i < n ensures FindsRoom(Run(s, events[..n][..i]), events[..n][i], cap) {
      assert events[..n][..i] == events[..i];
    }
  }
}
