/** Who may overtake whom, and for how long. */
module TrQueueFairness {
  import opened Wrappers
  import opened TrQueue
  import opened TrQueueSafety

  // ----- ageing -----

  lemma DivMonotone(x: real, y: real, a: real)
    requires a > 0.0 && x <= y
    ensures x / a <= y / a
  {
    assert (y - x) / a >= 0.0;
    assert y / a - x / a == (y - x) / a;
  }

  lemma MulDivCancel(p: int, a: real)
    requires a > 0.0
    ensures (p as real) * a / a == p as real
  {
  }

  lemma TruncateMonotone(x: real, y: real)
    requires x <= y
    ensures Truncate(x) <= Truncate(y)
  {
  }

  lemma TruncateInt(p: int, x: real)
    requires 0.0 <= p as real <= x
    ensures p <= Truncate(x)
  {
  }

  lemma LongerWaitPromotesMore(c: Config, now: real, j: Job, k: Job)
    requires j.enqueued <= k.enqueued
    ensures Promotion(c, now, j) >= Promotion(c, now, k)
  {
    if c.agingS > 0.0 {
      DivMonotone(now - k.enqueued, now - j.enqueued, c.agingS);
      TruncateMonotone((now - k.enqueued) / c.agingS, (now - j.enqueued) / c.agingS);
    }
  }

  /** Having waited its rank times the ageing unit, a job counts as KILL. */
  ghost predicate Aged(c: Config, now: real, j: Job) {
    c.agingS > 0.0 && now - j.enqueued >= j.priority.Rank() as real * c.agingS
  }

  lemma AgedIsTop(c: Config, now: real, j: Job)
    requires Aged(c, now, j)
    ensures Effective(c, now, j) == 0
  {
    var p := j.priority.Rank();
    assert p as real * c.agingS >= 0.0;
    DivMonotone(p as real * c.agingS, now - j.enqueued, c.agingS);
    MulDivCancel(p, c.agingS);
    TruncateInt(p, (now - j.enqueued) / c.agingS);
  }

  /** A newer job goes before an older one only by a strictly higher base priority, and only while the older one
      has not aged out. */
  lemma OvertakingNeedsRank(c: Config, now: real, j: Job, k: Job)
    requires j.id < k.id && j.enqueued <= k.enqueued
    requires Before(c, now, k, j)
    ensures k.priority.Rank() < j.priority.Rank() && !Aged(c, now, j)
  {
    LongerWaitPromotesMore(c, now, j, k);
    if Aged(c, now, j) {
      AgedIsTop(c, now, j);
    }
  }

  // ----- picks in a run -----

  lemma BeforeTotal(c: Config, now: real, j: Job, k: Job)
    requires j.id != k.id
    ensures Before(c, now, j, k) || Before(c, now, k, j)
  {
  }

  lemma PickBeats(c: Config, now: real, ws: seq<Job>, j: Job)
    requires ws != [] && j in ws && j.id != ws[PickIndex(c, now, ws)].id
    ensures Before(c, now, ws[PickIndex(c, now, ws)], j)
  {
    var i :| 0 <= i < |ws| && ws[i] == j;
    PickIsFirst(c, now, ws, i);
    BeforeTotal(c, now, j, ws[PickIndex(c, now, ws)]);
  }

  lemma InRest(ws: seq<Job>, i: nat, j: Job)
    requires i < |ws| && j in RemoveAt(ws, i)
    ensures j in ws
  {
  }

  lemma AdvancePicks(c: Config, x: Bucket, j: Job)
    requires x.waiters != [] && JobsInv(c, x, None)
    requires j in Advance(c, x).waiters
    ensures var a := Advance(c, x);
            && !a.phase.Idle?
            && a.clock == x.clock
            && j in x.waiters && j.id != a.phase.job.id
            && Before(c, x.clock, a.phase.job, j)
            && (j.id < a.phase.job.id ==> j.enqueued <= a.phase.job.enqueued)
  {
    var i := PickIndex(c, x.clock, x.waiters);
    InRest(x.waiters, i, j);
    assert j.id != x.waiters[i].id by {
      var k :| 0 <= k < |RemoveAt(x.waiters, i)| && RemoveAt(x.waiters, i)[k] == j;
      assert j == x.waiters[if k < i then k else k + 1];
    }
    PickBeats(c, x.clock, x.waiters, j);
    hide PickIndex, Before, RemoveAt;
  }

  /** The state in which the step's pick is made; steps that pick nothing leave the log of picks alone. */
  ghost function HeadOf(c: Config, b: Bucket, s: Step): Option<Bucket> {
    match s
    case Submit(n, p) => if n >= b.nextId && b.phase.Idle? then Some(Lead(b, n, p)) else None
    case CallFinished(o) =>
      if b.phase.Running? && !(o.Raised? && o.retryable && b.phase.job.attempts < c.maxRetries)
      then Some(Settle(b, if o.Returned? then Result else Exception)) else None
    case BackoffElapsed =>
      if b.phase.BackingOff? && b.clock >= b.phase.wakeAt
      then Some(b.(waiters := b.waiters + [b.phase.job])) else None
    case _ => None
  }

  lemma HeadOk(c: Config, b: Bucket, s: Step)
    requires HoldInv(c, b)
    ensures var h := HeadOf(c, b, s);
            if h.None? then Next(c, b, s).picks == b.picks
            else Next(c, b, s) == Advance(c, h.value) && JobsInv(c, h.value, None)
                 && h.value.picks == b.picks && h.value.clock == b.clock
  {
    match s
    case Submit(n, p) =>
      if n >= b.nextId && b.phase.Idle? { LeadHolds(c, b, n, p); }
      hide Advance, JobsInv, FuturesInv;
    case CallFinished(o) =>
      if b.phase.Running? { SettleHolds(c, b, if o.Returned? then Result else Exception); }
      hide Advance, JobsInv, FuturesInv, EndRun, Resolve;
    case BackoffElapsed =>
      if b.phase.BackingOff? { PushHolds(c, b, b.phase.job); }
      hide Advance, JobsInv, FuturesInv;
    case _ =>
  }

  /** Bypass in runs: whenever a step takes a job while an older one stays queued, the taken job has a strictly
      higher base priority and the older one has not yet aged. */
  lemma BypassNeedsRank(c: Config, clock: real, steps: seq<Step>, s: Step, b: Bucket, a: Bucket, j: Job)
    requires b == Reach(c, Fresh(clock), steps) && a == Next(c, b, s)
    requires a.picks != b.picks && j in a.waiters
    ensures !a.phase.Idle?
    ensures j.id < a.phase.job.id ==>
              a.phase.job.priority.Rank() < j.priority.Rank() && !Aged(c, a.clock, j)
  {
    RunHolds(c, clock, steps);
    HeadOk(c, b, s);
    hide Next, Reach, HeadOf, Aged;
    var h := HeadOf(c, b, s).value;
    assert h.waiters != [];
    AdvancePicks(c, h, j);
    if j.id < a.phase.job.id {
      OvertakingNeedsRank(c, a.clock, j, a.phase.job);
    }
  }

  // ----- how long an aged job can still wait -----

  /** How many more times a queued job can be picked. */
  function PicksLeft(c: Config, j: Job): nat {
    if j.attempts <= c.maxRetries then c.maxRetries + 1 - j.attempts else 0
  }

  function OlderBudget(c: Config, ws: seq<Job>, id: nat): nat {
    if ws == [] then 0
    else OlderBudget(c, ws[..|ws| - 1], id) + if ws[|ws| - 1].id < id then PicksLeft(c, ws[|ws| - 1]) else 0
  }

  /** The job in hand can be picked again only after a refused call; sleeping in back-off it already has been. */
  function HandBudget(c: Config, p: Phase, id: nat): nat {
    if p.Idle? || p.job.id >= id then 0
    else if p.BackingOff? || PicksLeft(c, p.job) == 0 then PicksLeft(c, p.job)
    else PicksLeft(c, p.job) - 1
  }

  function Budget(c: Config, b: Bucket, id: nat): nat {
    OlderBudget(c, b.waiters, id) + HandBudget(c, b.phase, id)
  }

  lemma {:induction false} BudgetOfRemove(c: Config, ws: seq<Job>, i: nat, id: nat)
    requires i < |ws|
    ensures OlderBudget(c, ws, id) == OlderBudget(c, RemoveAt(ws, i), id) + if ws[i].id < id then PicksLeft(c, ws[i]) else 0
  {
    var n := |ws| - 1;
    var rest := RemoveAt(ws, i);
    if i == n {
      assert rest == ws[..n];
    } else {
      BudgetOfRemove(c, ws[..n], i, id);
      assert rest[..|rest| - 1] == RemoveAt(ws[..n], i);
      assert rest[|rest| - 1] == ws[n];
    }
  }

  lemma BudgetOfPush(c: Config, ws: seq<Job>, j: Job, id: nat)
    ensures OlderBudget(c, ws + [j], id) == OlderBudget(c, ws, id) + if j.id < id then PicksLeft(c, j) else 0
  {
    assert (ws + [j])[..|ws|] == ws;
  }

  lemma AdvanceSpends(c: Config, x: Bucket, j: Job)
    requires JobsInv(c, x, None) && Aged(c, x.clock, j)
    requires j in Advance(c, x).waiters
    ensures var a := Advance(c, x);
            && Budget(c, a, j.id) + 1 <= OlderBudget(c, x.waiters, j.id)
            && |a.picks| == |x.picks| + 1 && x.picks <= a.picks && a.picks[|x.picks|] < j.id
  {
    var i := PickIndex(c, x.clock, x.waiters);
    AdvancePicks(c, x, j);
    BudgetOfRemove(c, x.waiters, i, j.id);
    if j.id < x.waiters[i].id {
      OvertakingNeedsRank(c, x.clock, j, x.waiters[i]);
    }
    hide PickIndex, RemoveAt, Before, OlderBudget, Aged;
  }

  lemma HeadSpends(c: Config, b: Bucket, s: Step, j: Job)
    requires HoldInv(c, b) && j in b.waiters && HeadOf(c, b, s).Some?
    ensures OlderBudget(c, HeadOf(c, b, s).value.waiters, j.id) <= Budget(c, b, j.id)
  {
    match s
    case Submit(n, p) => assert false;  // an idle bucket has no waiters
    case CallFinished(o) =>
    case BackoffElapsed => BudgetOfPush(c, b.waiters, b.phase.job, j.id);
    hide OlderBudget;
  }

  lemma QuietSpends(c: Config, b: Bucket, s: Step, j: Job)
    requires HoldInv(c, b) && j in b.waiters && HeadOf(c, b, s).None? && j in Next(c, b, s).waiters
    ensures Budget(c, Next(c, b, s), j.id) <= Budget(c, b, j.id)
  {
    if s.Submit? {
      BudgetOfPush(c, b.waiters, Job(s.id, s.priority, b.clock, 0), j.id);
    }
    hide OlderBudget, Advance, EndRun, Resolve, CancelAll, Ids;
  }

  /** While an aged job waits, every step that picks takes an older job and uses up one pick of its budget. */
  lemma StepSpends(c: Config, b: Bucket, s: Step, j: Job)
    requires HoldInv(c, b) && Aged(c, b.clock, j) && j in b.waiters && j in Next(c, b, s).waiters
    ensures var a := Next(c, b, s);
            && Aged(c, a.clock, j)
            && b.picks <= a.picks && |a.picks| <= |b.picks| + 1
            && (|a.picks| > |b.picks| ==> a.picks[|b.picks|] < j.id)
            && |a.picks| - |b.picks| + Budget(c, a, j.id) <= Budget(c, b, j.id)
  {
    HeadOk(c, b, s);
    ClockForward(c, b, s);
    if HeadOf(c, b, s).Some? {
      HeadSpends(c, b, s, j);
      AdvanceSpends(c, HeadOf(c, b, s).value, j);
    } else {
      QuietSpends(c, b, s, j);
    }
    hide Next, HeadOf, Advance, Budget, OlderBudget, HoldInv, JobsInv, FuturesInv;
  }

  lemma ClockForward(c: Config, b: Bucket, s: Step)
    ensures Next(c, b, s).clock >= b.clock
  {
    hide PickIndex, EndRun, Resolve, CancelAll;
  }

  /** However many KILL and BOOT jobs keep arriving, an aged job waits for at most its budget of picks, that is the
      calls the jobs older than it may still need, and only those older jobs are picked before it. */
  lemma {:induction false} AgedWaitIsBounded(c: Config, b: Bucket, steps: seq<Step>, j: Job)
    requires HoldInv(c, b) && Aged(c, b.clock, j)
    requires forall n :: 0 <= n <= |steps| ==> j in Reach(c, b, steps[..n]).waiters
    ensures var e := Reach(c, b, steps);
            && HoldInv(c, e) && Aged(c, e.clock, j)
            && b.picks <= e.picks && |e.picks| - |b.picks| + Budget(c, e, j.id) <= Budget(c, b, j.id)
            && forall k :: |b.picks| <= k < |e.picks| ==> e.picks[k] < j.id
  {
    hide Next, Budget, HoldInv, Aged;
    if steps == [] {
      assert steps[..0] == [];
    } else {
      var m := |steps| - 1;
      forall n | 0 <= n <= m ensures j in Reach(c, b, steps[..m][..n]).waiters {
        assert steps[..m][..n] == steps[..n];
      }
      AgedWaitIsBounded(c, b, steps[..m], j);
      assert steps[..|steps|] == steps;
      StepSpends(c, Reach(c, b, steps[..m]), steps[m], j);
      StepHolds(c, Reach(c, b, steps[..m]), steps[m]);
    }
  }

  /** So more picks than the budget means the aged job has left the queue. */
  lemma AgedIsServed(c: Config, b: Bucket, steps: seq<Step>, j: Job)
    requires HoldInv(c, b) && Aged(c, b.clock, j)
    requires |Reach(c, b, steps).picks| > |b.picks| + Budget(c, b, j.id)
    ensures exists n :: 0 <= n <= |steps| && j !in Reach(c, b, steps[..n]).waiters
  {
    hide Next, Budget, Aged, HoldInv;
    if !exists n :: 0 <= n <= |steps| && j !in Reach(c, b, steps[..n]).waiters {
      AgedWaitIsBounded(c, b, steps, j);
      assert false;
    }
  }
}
