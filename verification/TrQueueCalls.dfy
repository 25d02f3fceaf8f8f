/** Bounds on the calls themselves: how many per job, how they are counted, and how far apart they are. */
module TrQueueCalls {
  import opened Wrappers
  import opened TrQueue
  import opened TrQueueSafety

  // ----- spacing and overlap -----

  ghost predicate CallsInv(c: Config, b: Bucket) {
    && (forall i :: 0 <= i < |b.runs| ==> b.runs[i].start <= b.clock)
    && (forall i :: 0 <= i < |b.runs| && b.runs[i].ending.InFlight? ==> i == |b.runs| - 1 && b.phase.Running?)
    && (b.phase.Running? ==> b.runs != [] && b.runs[|b.runs| - 1] == Run(b.phase.job.id, b.runs[|b.runs| - 1].start, InFlight))
    && (forall i :: 0 <= i < |b.runs| && b.runs[i].ending.Ended? ==>
          b.lastCall.Some? && b.runs[i].start <= b.runs[i].ending.at <= b.lastCall.value)
    && (forall i, j :: 0 <= i < j < |b.runs| && b.runs[i].ending.Ended? ==>
          b.runs[j].start >= b.runs[i].ending.at + c.minInterval)
    && (b.lastCall.Some? ==> b.lastCall.value <= b.clock)
    && (b.phase.Gating? && b.lastCall.Some? ==> b.phase.wakeAt >= b.lastCall.value + c.minInterval)
  }

  /** Starting is allowed: nothing is in flight and the interval since the last finished call has passed. */
  ghost predicate MayStart(c: Config, b: Bucket) {
    && CallsInv(c, b.(phase := Idle))
    && (b.lastCall.Some? ==> b.clock >= b.lastCall.value + c.minInterval)
  }

  lemma StartKeeps(c: Config, b: Bucket, job: Job)
    requires MayStart(c, b)
    ensures CallsInv(c, StartCall(b, job))
  {
  }

  lemma AdvanceCalls(c: Config, b: Bucket)
    requires c.minInterval >= 0.0
    requires CallsInv(c, b.(phase := Idle))
    ensures CallsInv(c, Advance(c, b))
  {
    hide PickIndex;
    if b.waiters != [] {
      var i := PickIndex(c, b.clock, b.waiters);
      var taken := b.(waiters := RemoveAt(b.waiters, i), picks := b.picks + [b.waiters[i].id]);
      if c.minInterval <= 0.0 || b.lastCall.None? || b.clock - b.lastCall.value >= c.minInterval {
        StartKeeps(c, taken, b.waiters[i]);
      }
    }
  }

  lemma EndCalls(c: Config, b: Bucket)
    requires c.minInterval >= 0.0
    requires CallsInv(c, b) && b.phase.Running?
    ensures CallsInv(c, b.(phase := Idle, lastCall := Some(b.clock), runs := EndRun(b.runs, Ended(b.clock))))
  {
  }

  lemma FinishCalls(c: Config, b: Bucket, o: Outcome)
    requires c.minInterval >= 0.0
    requires CallsInv(c, b) && b.phase.Running?
    ensures CallsInv(c, FinishCall(c, b, o))
  {
    EndCalls(c, b);
    SettleCalls(c, b, Result);
    SettleCalls(c, b, Exception);
    hide Settle;
    hide EndRun, Advance;
    if !(o.Raised? && o.retryable && b.phase.job.attempts < c.maxRetries) {
      AdvanceCalls(c, Settle(b, if o.Returned? then Result else Exception));
    }
  }

  lemma SettleCalls(c: Config, b: Bucket, f: Future)
    requires b.phase.Running? && CallsInv(c, b.(phase := Idle, lastCall := Some(b.clock), runs := EndRun(b.runs, Ended(b.clock))))
    ensures CallsInv(c, Settle(b, f).(phase := Idle))
  {
    hide EndRun, Resolve;
  }

  lemma SubmitCalls(c: Config, b: Bucket, n: nat, p: Priority)
    requires c.minInterval >= 0.0
    requires CallsInv(c, b)
    ensures CallsInv(c, Next(c, b, Submit(n, p)))
  {
    hide Advance, Next;
    SubmitIs(c, b, n, p);
    if n >= b.nextId && b.phase.Idle? {
      AdvanceCalls(c, Lead(b, n, p));
    }
  }

  lemma RequeueCalls(c: Config, b: Bucket)
    requires c.minInterval >= 0.0
    requires CallsInv(c, b) && b.phase.BackingOff?
    ensures CallsInv(c, Advance(c, b.(waiters := b.waiters + [b.phase.job])))
  {
    hide Advance;
    AdvanceCalls(c, b.(waiters := b.waiters + [b.phase.job]));
  }

  lemma CancelCalls(c: Config, b: Bucket)
    requires CallsInv(c, b) && !b.phase.Idle?
    ensures CallsInv(c, CancelDrain(b))
  {
    hide CancelAll;
  }

  lemma StepCalls(c: Config, b: Bucket, s: Step)
    requires c.minInterval >= 0.0
    requires CallsInv(c, b)
    ensures CallsInv(c, Next(c, b, s))
  {
    hide Advance, FinishCall, StartCall, CancelDrain, Resolve;
    match s
    case Submit(n, p) => SubmitCalls(c, b, n, p);
    case GateElapsed =>
      if b.phase.Gating? && b.clock >= b.phase.wakeAt {
        StartKeeps(c, b, b.phase.job);
      }
    case CallFinished(o) => if b.phase.Running? { FinishCalls(c, b, o); }
    case BackoffElapsed => if b.phase.BackingOff? { RequeueCalls(c, b); }
    case CancelLeader => if !b.phase.Idle? { CancelCalls(c, b); }
    case _ =>
  }

  /** In every run, also across retries and cancelled leaders: at most one call is in flight, and every call
      starts at least the minimum interval after every earlier finished call. */
  lemma {:induction false} CallsNeverOverlap(c: Config, clock: real, steps: seq<Step>)
    requires c.minInterval >= 0.0
    ensures CallsInv(c, Reach(c, Fresh(clock), steps))
  {
    hide Next, CallsInv;
    if steps == [] {
      assert CallsInv(c, Fresh(clock)) by { CallsAtStart(c, clock); }
    } else {
      var n := |steps| - 1;
      CallsNeverOverlap(c, clock, steps[..n]);
      StepCalls(c, Reach(c, Fresh(clock), steps[..n]), steps[n]);
    }
  }

  lemma CallsAtStart(c: Config, clock: real)
    ensures CallsInv(c, Fresh(clock))
  {
  }

  // ----- how often each job is called -----

  function CountRuns(runs: seq<Run>, n: nat): nat {
    if runs == [] then 0
    else CountRuns(runs[..|runs| - 1], n) + if runs[|runs| - 1].id == n then 1 else 0
  }

  lemma CountPush(runs: seq<Run>, r: Run)
    ensures forall n :: CountRuns(runs + [r], n) == CountRuns(runs, n) + if r.id == n then 1 else 0
  {
    assert (runs + [r])[..|runs|] == runs;
  }

  lemma CountEnd(runs: seq<Run>, e: Ending)
    ensures |EndRun(runs, e)| == |runs|
    ensures forall n :: CountRuns(EndRun(runs, e), n) == CountRuns(runs, n)
  {
    if runs != [] {
      assert EndRun(runs, e)[..|runs| - 1] == runs[..|runs| - 1];
    }
  }

  /** A queued job has been called once per recorded attempt; nobody is called more than maxRetries + 1 times. */
  ghost predicate CountInv(c: Config, b: Bucket, hand: Option<Job>, extra: nat) {
    && (forall k :: 0 <= k < |b.waiters| ==> CountRuns(b.runs, b.waiters[k].id) == b.waiters[k].attempts)
    && (hand.Some? ==> CountRuns(b.runs, hand.value.id) == hand.value.attempts + extra)
    && (forall n: nat :: CountRuns(b.runs, n) <= c.maxRetries + 1)
    && (forall n: nat :: n >= b.nextId ==> CountRuns(b.runs, n) == 0)
    && |b.runs| == b.calls + b.retries + b.failures + b.aborted + extra
  }

  function Extra(b: Bucket): nat { if b.phase.Running? then 1 else 0 }

  ghost predicate Counts(c: Config, b: Bucket) { CountInv(c, b, Hand(b), Extra(b)) }

  lemma StartCounts(c: Config, b: Bucket, job: Job)
    requires CountInv(c, b, Some(job), 0) && JobsInv(c, b, Some(job))
    ensures Counts(c, StartCall(b, job))
  {
    CountPush(b.runs, Run(job.id, b.clock, InFlight));
    hide CountRuns;
  }

  lemma AdvanceCounts(c: Config, b: Bucket)
    requires CountInv(c, b, None, 0) && JobsInv(c, b, None) && FuturesInv(b, None)
    ensures Counts(c, Advance(c, b))
  {
    hide PickIndex, CountRuns, Ids;
    if b.waiters != [] {
      var i := PickIndex(c, b.clock, b.waiters);
      TakeHolds(c, b, i);
      var rest := RemoveAt(b.waiters, i);
      assert forall k :: 0 <= k < |rest| ==> rest[k] == b.waiters[if k < i then k else k + 1];
      hide RemoveAt;
      StartCounts(c, b.(waiters := rest, picks := b.picks + [b.waiters[i].id]), b.waiters[i]);
    }
  }

  lemma SettleCounts(c: Config, b: Bucket, f: Future)
    requires HoldInv(c, b) && Counts(c, b) && b.phase.Running? && f != Pending
    ensures var s := Settle(b, f); CountInv(c, s, None, 0) && JobsInv(c, s, None) && FuturesInv(s, None)
  {
    CountEnd(b.runs, Ended(b.clock));
    SettleHolds(c, b, f);
    hide EndRun, CountRuns, Resolve, Ids;
  }

  lemma RetryCounts(c: Config, b: Bucket)
    requires Counts(c, b) && b.phase.Running?
    ensures Counts(c, Retry(c, b))
  {
    CountEnd(b.runs, Ended(b.clock));
    hide EndRun, CountRuns;
  }

  lemma FinishCounts(c: Config, b: Bucket, o: Outcome)
    requires HoldInv(c, b) && Counts(c, b) && b.phase.Running?
    ensures Counts(c, FinishCall(c, b, o))
  {
    if o.Raised? && o.retryable && b.phase.job.attempts < c.maxRetries {
      RetryCounts(c, b);
    } else {
      var f := if o.Returned? then Result else Exception;
      SettleCounts(c, b, f);
      AdvanceCounts(c, Settle(b, f));
    }
    hide Retry, Advance, Settle, Counts, HoldInv, EndRun;
  }

  lemma StepCounts(c: Config, b: Bucket, s: Step)
    requires HoldInv(c, b) && Counts(c, b)
    ensures Counts(c, Next(c, b, s))
  {
    hide Advance, FinishCall, CountRuns, Ids, EndRun;
    match s
    case Submit(n, p) =>
      if n >= b.nextId {
        if b.phase.Idle? {
          LeadHolds(c, b, n, p);
          AdvanceCounts(c, Lead(b, n, p));
        } else {
          EnqueueHolds(c, b, n, p, Hand(b));
        }
      }
    case GateElapsed =>
      if b.phase.Gating? && b.clock >= b.phase.wakeAt { StartCounts(c, b, b.phase.job); }
    case CallFinished(o) => if b.phase.Running? { FinishCounts(c, b, o); }
    case BackoffElapsed =>
      if b.phase.BackingOff? && b.clock >= b.phase.wakeAt {
        PushHolds(c, b, b.phase.job);
        AdvanceCounts(c, b.(waiters := b.waiters + [b.phase.job]));
      }
    case CancelLeader => CountEnd(b.runs, Aborted);
    case _ =>
  }

  lemma {:induction false} RunCounts(c: Config, clock: real, steps: seq<Step>)
    ensures Counts(c, Reach(c, Fresh(clock), steps))
  {
    hide Next, Counts, HoldInv;
    if steps == [] {
      assert Counts(c, Fresh(clock)) by { CountsAtStart(c, clock); }
    } else {
      var n := |steps| - 1;
      RunCounts(c, clock, steps[..n]);
      RunHolds(c, clock, steps[..n]);
      StepCounts(c, Reach(c, Fresh(clock), steps[..n]), steps[n]);
    }
  }

  lemma CountsAtStart(c: Config, clock: real)
    ensures Counts(c, Fresh(clock))
  {
  }

  /** Every job is called at most maxRetries + 1 times, and every call ended as exactly one of: a result, a retry,
      a propagated failure, an abort by cancellation - or it is the one still in flight. */
  lemma RetriesBounded(c: Config, clock: real, steps: seq<Step>, n: nat)
    ensures var b := Reach(c, Fresh(clock), steps);
            && CountRuns(b.runs, n) <= c.maxRetries + 1
            && |b.runs| == b.calls + b.retries + b.failures + b.aborted + if b.phase.Running? then 1 else 0
  {
    RunCounts(c, clock, steps);
  }
}
