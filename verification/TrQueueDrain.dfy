/** The queue's own loops: the scan that picks a job, and a leader draining a bucket to which nothing new arrives. */
module TrQueueDrain {
  import opened Wrappers
  import opened TrQueue
  import opened TrQueueSafety
  import opened TrQueueFairness
  import opened TrQueueRanks

  /** The calls the queued jobs may still need: what a drain counts down. */
  function TotalLeft(c: Config, ws: seq<Job>): nat {
    if ws == [] then 0 else TotalLeft(c, ws[..|ws| - 1]) + PicksLeft(c, ws[|ws| - 1])
  }

  lemma {:induction false} LeftOfRemove(c: Config, ws: seq<Job>, i: nat)
    requires i < |ws|
    ensures TotalLeft(c, ws) == TotalLeft(c, RemoveAt(ws, i)) + PicksLeft(c, ws[i])
  {
    var n := |ws| - 1;
    var rest := RemoveAt(ws, i);
    if i == n {
      assert rest == ws[..n];
    } else {
      LeftOfRemove(c, ws[..n], i);
      assert rest[..|rest| - 1] == RemoveAt(ws[..n], i);
      assert rest[|rest| - 1] == ws[n];
    }
  }

  lemma LeftOfPush(c: Config, ws: seq<Job>, j: Job)
    ensures TotalLeft(c, ws + [j]) == TotalLeft(c, ws) + PicksLeft(c, j)
  {
    assert (ws + [j])[..|ws|] == ws;
  }

  lemma PowPositive(n: nat, base: real)
    requires base >= 0.0
    ensures base * Pow2(n) as real >= 0.0
  {
    PowAtLeastOne(n);
  }

  lemma PowAtLeastOne(n: nat)
    ensures Pow2(n) >= 1
  {
  }

  lemma ReachPush(c: Config, b: Bucket, steps: seq<Step>, s: Step)
    ensures Reach(c, b, steps + [s]) == Next(c, Reach(c, b, steps), s)
  {
    assert (steps + [s])[..|steps|] == steps;
  }

  /** The refused job has slept and queues again. */
  function Slept(c: Config, b: Bucket, wakeAt: real): Bucket
    requires b.phase.Running?
  {
    var r := Retry(c, b);
    r.(clock := wakeAt, waiters := b.waiters + [r.phase.job])
  }

  /** How the calls of one drain go: the answer to the n-th call and the time it takes. */
  datatype Weather = Weather(outcome: nat -> Outcome, latency: nat -> nat)

  /** The call that decides the fate of a job nobody competes with: the first one not refused for its count, or the last
      one the retries allow. */
  ghost predicate Decides(c: Config, w: Weather, k: nat) {
    && k <= c.maxRetries
    && (forall i :: 0 <= i < k ==> w.outcome(i) == Raised(true))
    && (k < c.maxRetries ==> w.outcome(k) != Raised(true))
  }

  function FutureOf(o: Outcome): Future {
    match o
    case Returned => Result
    case Raised(_) => Exception
  }

  class AccountTrBucket {
    const c: Config
    const clock0: real
    var clock: real
    var waiters: seq<Job>
    var draining: bool
    var lastCall: Option<real>
    var nextId: nat
    var futures: map<nat, Future>
    var calls: nat
    var retries: nat
    /** The machine's state and the steps that led there; `head` is its state at the head of the drain loop. */
    ghost var machine: Bucket
    ghost var steps: seq<Step>
    ghost var head: Bucket

    /** The machine's state is reached from an empty bucket by the steps taken, none of which cancelled a leader. */
    ghost predicate Traced()
      reads this`machine, this`steps
    {
      machine == Reach(c, Fresh(clock0), steps) && HoldInv(c, machine) && machine.lost == {} && machine.raised == {}
    }

    ghost predicate Agrees(b: Bucket)
      reads this
    {
      && b.clock == clock && b.waiters == waiters && b.lastCall == lastCall && b.nextId == nextId
      && b.futures == futures && b.calls == calls && b.retries == retries
    }

    /** Between drains: nothing queued, and the fields are a reachable state of the machine. */
    ghost predicate Valid()
      reads this
    {
      Traced() && Agrees(machine) && machine.phase.Idle? && !draining && waiters == []
    }

    /** The loop's head has been reached: the machine goes on from `head`. */
    ghost predicate Draining()
      reads this
    {
      && draining && Traced() && Agrees(head) && machine == Advance(c, head)
      && JobsInv(c, head, None) && FuturesInv(head, None)
    }

    /** A call is in flight for `job`. */
    ghost predicate Calling(job: Job)
      reads this
    {
      draining && Traced() && Agrees(machine) && machine.phase == Running(job)
    }

    constructor (config: Config, now: real)
      ensures Valid() && c == config && futures == map[] && steps == []
    {
      c, clock0, clock := config, now, now;
      waiters, draining, lastCall, nextId := [], false, None, 0;
      futures, calls, retries := map[], 0, 0;
      steps, head, machine := [], Fresh(now), Fresh(now);
    }

    ghost method Take(s: Step)
      requires Traced() && !s.CancelLeader?
      modifies this`machine, this`steps
      ensures Traced() && steps == old(steps) + [s]
      ensures machine == Next(c, old(machine), s)
    {
      hide Next, HoldInv, Reach;
      StepHolds(c, machine, s);
      StepLoses(c, machine, s);
      ReachPush(c, Fresh(clock0), steps, s);
      machine := Next(c, machine, s);
      steps := steps + [s];
    }

    ghost method TakeTick(t: real)
      requires Traced() && t >= machine.clock
      modifies this`machine, this`steps
      ensures Traced() && old(steps) <= steps
      ensures machine == old(machine).(clock := t)
    {
      hide Reach, HoldInv;
      Take(Tick(t));
    }

    ghost method TakeSettle(o: Outcome, f: Future)
      requires Traced() && machine.phase.Running? && f == if o.Returned? then Result else Exception
      requires !(o.Raised? && o.retryable && machine.phase.job.attempts < c.maxRetries)
      modifies this`machine, this`steps
      ensures Traced() && old(steps) <= steps
      ensures machine == Advance(c, Settle(old(machine), f))
      ensures JobsInv(c, Settle(old(machine), f), None) && FuturesInv(Settle(old(machine), f), None)
    {
      hide Reach, JobsInv, FuturesInv, Advance, EndRun, Resolve, HoldInv;
      SettleHolds(c, machine, f);
      AdvanceKeepsFutures(c);
      Take(CallFinished(o));
    }

    /** Refused, slept and queued again; `slept` is the state at the loop's head. */
    ghost method TakeRetry(wakeAt: real) returns (slept: Bucket)
      requires Traced() && machine.phase.Running? && machine.phase.job.attempts < c.maxRetries
      requires wakeAt == machine.clock + c.backoffBase * Pow2(machine.phase.job.attempts) as real >= machine.clock
      modifies this`machine, this`steps
      ensures Traced() && old(steps) <= steps
      ensures slept == Slept(c, old(machine), wakeAt) && machine == Advance(c, slept)
      ensures JobsInv(c, slept, None) && FuturesInv(slept, None)
    {
      hide Reach, HoldInv, Pow2, Advance, JobsInv, FuturesInv, EndRun;
      Take(CallFinished(Raised(true)));
      assert machine == Retry(c, old(machine));
      TakeTick(wakeAt);
      HeldInHand(c, machine);
      PushHolds(c, machine, machine.phase.job);
      slept := machine.(waiters := machine.waiters + [machine.phase.job]);
      TakeBackoff();
      AdvanceKeepsFutures(c);
    }

    ghost method TakeBackoff()
      requires Traced() && machine.phase.BackingOff? && machine.clock >= machine.phase.wakeAt
      modifies this`machine, this`steps
      ensures Traced() && old(steps) <= steps
      ensures machine == Advance(c, old(machine).(waiters := old(machine).waiters + [old(machine).phase.job]))
    {
      hide Traced, Advance;
      Take(BackoffElapsed);
    }

    /** The scan over the waiters. */
    method Pick() returns (best: nat)
      requires waiters != []
      ensures best == PickIndex(c, clock, waiters)
      ensures best < |waiters| && forall i :: 0 <= i < |waiters| ==> !Before(c, clock, waiters[i], waiters[best])
      ensures Leads(c, clock, waiters, best)
    {
      best := 0;
      for i := 1 to |waiters|
        invariant best == PickIndex(c, clock, waiters[..i])
      {
        assert waiters[..i + 1][..i] == waiters[..i];
        hide Before;
        if Before(c, clock, waiters[i], waiters[best]) {
          best := i;
        }
      }
      assert waiters[..|waiters|] == waiters;
      PickLeads(c, clock, waiters);
      forall i | 0 <= i < |waiters| ensures !Before(c, clock, waiters[i], waiters[best]) {
        PickIsFirst(c, clock, waiters, i);
      }
    }

    /** Wait until the interval since the last call has passed. */
    method Gate(job: Job)
      requires draining && Traced() && Agrees(machine)
      requires if c.minInterval <= 0.0 || lastCall.None? || clock - lastCall.value >= c.minInterval
               then machine.phase == Running(job)
               else machine.phase == Gating(job, clock + (c.minInterval - (clock - lastCall.value)))
      modifies this
      ensures Calling(job)
      ensures old(steps) <= steps && futures == old(futures) && waiters == old(waiters)
      ensures calls == old(calls) && retries == old(retries)
    {
      hide Reach, HoldInv;
      if c.minInterval <= 0.0 || lastCall.None? {
        return;
      }
      var elapsed := clock - lastCall.value;
      if elapsed < c.minInterval {
        clock := clock + (c.minInterval - elapsed);
        TakeTick(clock);
        Take(GateElapsed);
      }
    }

    /** Take the picked job out of the queue and start its call once the gate lets it. */
    method TakeAndStart() returns (job: Job)
      requires Draining() && waiters != []
      modifies this
      ensures Calling(job)
      ensures old(steps) <= steps && futures == old(futures) && calls == old(calls) && retries == old(retries)
      ensures |old(waiters)| == 1 ==> job == old(waiters)[0] && waiters == []
      ensures TotalLeft(c, waiters) + PicksLeft(c, job) == TotalLeft(c, old(waiters)) && job.attempts <= c.maxRetries
    {
      hide PickIndex, RemoveAt, TotalLeft, PicksLeft, FuturesInv, Traced, Ids;
      var i := Pick();
      job := waiters[i];
      LeftOfRemove(c, waiters, i);
      assert job.attempts <= c.maxRetries;
      RemoveOnly(waiters, i);
      waiters := RemoveAt(waiters, i);
      Gate(job);
    }

    /** The call was refused for its count: sleep, then queue the same job again. */
    method Requeue(job: Job)
      requires Calling(job) && job.attempts < c.maxRetries && c.backoffBase >= 0.0
      modifies this
      ensures Draining()
      ensures old(steps) <= steps && futures == old(futures) && calls == old(calls) && retries == old(retries) + 1
      ensures waiters == old(waiters) + [job.(attempts := job.attempts + 1)]
    {
      hide Traced, JobsInv, FuturesInv, Advance, EndRun, Pow2;
      lastCall := Some(clock);
      retries := retries + 1;
      PowPositive(job.attempts, c.backoffBase);
      clock := clock + c.backoffBase * Pow2(job.attempts) as real;
      head := TakeRetry(clock);
      waiters := waiters + [job.(attempts := job.attempts + 1)];
    }

    /** The call is over: give its caller the answer. */
    method Answer(job: Job, o: Outcome)
      requires Calling(job) && !(o.Raised? && o.retryable && job.attempts < c.maxRetries)
      modifies this
      ensures Draining()
      ensures old(steps) <= steps && waiters == old(waiters) && futures.Keys == old(futures.Keys)
      ensures job.id in futures && old(futures)[job.id] == Pending ==> futures == old(futures)[job.id := FutureOf(o)]
      ensures retries == old(retries) && calls == old(calls) + if o.Returned? then 1 else 0
    {
      hide Traced, JobsInv, FuturesInv, Advance, EndRun, Resolve;
      var f := if o.Returned? then Result else Exception;
      head := Settle(machine, f);
      lastCall := Some(clock);
      calls := if f == Result then calls + 1 else calls;
      ResolvePending(futures, job.id, f);
      futures := Resolve(futures, job.id, f);
      TakeSettle(o, f);
    }

    /** The leader's loop with nobody else submitting. It ends, because each turn uses up one of the calls the
        queued jobs may still need; afterwards every caller that was waiting has its answer. */
    method Drain(w: Weather)
      requires Draining() && c.backoffBase >= 0.0
      modifies this
      ensures Valid() && old(steps) <= steps && futures.Keys == old(futures.Keys)
      ensures forall n <- futures :: futures[n] != Pending
      ensures |old(waiters)| == 1 && Untried(old(waiters)[0], old(futures)) ==>
        exists k :: Decides(c, w, k) && futures == old(futures)[old(waiters)[0].id := FutureOf(w.outcome(k))]
                    && retries == old(retries) + k
    {
      hide Draining, Calling, TotalLeft, PicksLeft, Valid;
      var turn := 0;
      ghost var alone := |waiters| == 1 && Untried(waiters[0], futures);
      while waiters != []
        invariant Draining() && old(steps) <= steps
        invariant futures.Keys == old(futures.Keys)
        invariant alone && waiters != [] ==>
          && waiters == [old(waiters)[0].(attempts := turn)] && futures == old(futures)
          && turn <= c.maxRetries && retries == old(retries) + turn
          && forall i :: 0 <= i < turn ==> w.outcome(i) == Raised(true)
        invariant alone && waiters == [] ==>
          exists k :: Decides(c, w, k) && futures == old(futures)[old(waiters)[0].id := FutureOf(w.outcome(k))]
                      && retries == old(retries) + k
        decreases TotalLeft(c, waiters)
      {
        var job := TakeAndStart();
        LeftIs(c, job);
        var o := w.outcome(turn);
        Wait(job, w.latency(turn));
        if o.Raised? && o.retryable && job.attempts < c.maxRetries {
          var again := job.(attempts := job.attempts + 1);
          LeftOfPush(c, waiters, again);
          LeftIs(c, again);
          Requeue(job);
        } else {
          Answer(job, o);
          assert alone ==> Decides(c, w, turn);
        }
        turn := turn + 1;
      }
      Leave();
    }

    /** The queue is empty: the leader stops. */
    method Leave()
      requires Draining() && waiters == []
      modifies this`draining
      ensures Valid() && !draining
      ensures forall n <- futures :: futures[n] != Pending
    {
      hide Reach, JobsInv;
      draining := false;
    }

    /** The time the call takes. */
    method Wait(job: Job, latency: nat)
      requires Calling(job)
      modifies this
      ensures Calling(job) && old(steps) <= steps && waiters == old(waiters) && futures == old(futures)
      ensures calls == old(calls) && retries == old(retries)
    {
      hide Reach, HoldInv;
      clock := clock + latency as real;
      TakeTick(clock);
    }

    /** `submit` on an idle bucket: the caller becomes the leader, and when it returns its job has its answer. */
    method Submit(p: Priority, w: Weather) returns (id: nat)
      requires Valid() && c.backoffBase >= 0.0
      modifies this
      ensures Valid() && old(steps) <= steps
      ensures id == old(nextId) && futures.Keys == old(futures.Keys) + {id}
      ensures forall n <- futures :: futures[n] != Pending
      ensures exists k :: Decides(c, w, k) && futures == old(futures)[id := FutureOf(w.outcome(k))]
                          && retries == old(retries) + k
    {
      hide JobsInv, FuturesInv, Advance, Reach;
      id := nextId;
      LeadHolds(c, machine, id, p);
      head := Lead(machine, id, p);
      waiters, nextId, futures := waiters + [Job(id, p, clock, 0)], nextId + 1, futures[id := Pending];
      draining := true;
      AdvanceKeepsFutures(c);
      Take(TrQueue.Submit(id, p));
      Drain(w);
    }
  }

  /** A pending job that was not called yet. */
  predicate Untried(j: Job, futures: map<nat, Future>) {
    j.attempts == 0 && j.id in futures && futures[j.id] == Pending
  }

  lemma ResolvePending(futures: map<nat, Future>, id: nat, f: Future)
    ensures id in futures && futures[id] == Pending ==> Resolve(futures, id, f) == futures[id := f]
  {
  }

  lemma RemoveOnly(ws: seq<Job>, i: nat)
    requires i < |ws|
    ensures |ws| == 1 ==> i == 0 && RemoveAt(ws, i) == []
  {
  }

  lemma HeldInHand(c: Config, b: Bucket)
    requires HoldInv(c, b)
    ensures JobsInv(c, b, Hand(b)) && FuturesInv(b, Hand(b))
  {
    hide JobsInv, FuturesInv;
  }

  lemma LeftIs(c: Config, j: Job)
    requires j.attempts <= c.maxRetries + 1
    ensures PicksLeft(c, j) == c.maxRetries + 1 - j.attempts
  {
  }
}
