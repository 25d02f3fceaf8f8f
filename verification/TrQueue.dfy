/** The account-TR queue of one bucket (server/app/core/tr_queue.py) as a machine over its await points.

    The leader's coroutine suspends in three places: in the interval gate, inside the call itself, and in
    the retry back-off. Everything between two suspensions is one step here, so `submit` calls of other
    coroutines, cancellations and the passage of time may fall between any two steps. */
module TrQueue {
  import opened Wrappers

  datatype Priority = Kill | Boot | Routine {
    function Rank(): int {
      match this case Kill => 0 case Boot => 1 case Routine => 2
    }
  }

  datatype Job = Job(id: nat, priority: Priority, enqueued: real, attempts: nat)

  datatype Config = Config(minInterval: real, agingS: real, maxRetries: nat, backoffBase: real)

  /** How one call ends: a value, or an exception that is or is not "call count exceeded". */
  datatype Outcome = Returned | Raised(retryable: bool)

  datatype Future = Pending | Result | Exception | Cancelled

  datatype Ending = InFlight | Ended(at: real) | Aborted

  datatype Run = Run(id: nat, start: real, ending: Ending)

  datatype Phase =
    | Idle
    | Gating(job: Job, wakeAt: real)
    | Running(job: Job)
    | BackingOff(job: Job, wakeAt: real)

  /** `leader` is the job whose `submit` runs the drain, and `raised` holds the leaders whose `submit` ended by a
      cancellation: nobody waits for their futures. `lost` holds the other callers whose future is left pending.
      `picks`, `runs`, `failures` and `aborted` record what happened. */
  datatype Bucket = Bucket(
    clock: real, waiters: seq<Job>, phase: Phase, leader: Option<nat>, lastCall: Option<real>, nextId: nat,
    futures: map<nat, Future>, calls: nat, retries: nat, failures: nat, aborted: nat,
    picks: seq<nat>, runs: seq<Run>, raised: set<nat>, lost: set<nat>)

  function Fresh(clock: real): Bucket {
    Bucket(clock, [], Idle, None, None, 0, map[], 0, 0, 0, 0, [], [], {}, {})
  }

  // ----- choosing the next job -----

  function Truncate(x: real): int {
    if x >= 0.0 then x.Floor else -((-x).Floor)
  }

  function Promotion(c: Config, now: real, j: Job): int {
    if c.agingS > 0.0 then Truncate((now - j.enqueued) / c.agingS) else 0
  }

  function Effective(c: Config, now: real, j: Job): int {
    var e := j.priority.Rank() - Promotion(c, now, j);
    if e < 0 then 0 else e
  }

  /** `a` is served before `b`. */
  predicate Before(c: Config, now: real, a: Job, b: Job) {
    var ea, eb := Effective(c, now, a), Effective(c, now, b);
    ea < eb || (ea == eb && a.id < b.id)
  }

  /** Index of the job to serve; the first of equals, as the scan keeps what it has. */
  function PickIndex(c: Config, now: real, ws: seq<Job>): (r: nat)
    requires ws != []
    ensures r < |ws|
  {
    if |ws| == 1 then 0
    else
      var best := PickIndex(c, now, ws[..|ws| - 1]);
      if Before(c, now, ws[|ws| - 1], ws[best]) then |ws| - 1 else best
  }

  lemma {:induction false} PickIsFirst(c: Config, now: real, ws: seq<Job>, i: nat)
    requires i < |ws|
    ensures !Before(c, now, ws[i], ws[PickIndex(c, now, ws)])
  {
    hide Effective;
    if |ws| > 1 {
      var n := |ws| - 1;
      if i < n {
        PickIsFirst(c, now, ws[..n], i);
      }
    }
  }

  function RemoveAt<T>(s: seq<T>, i: nat): seq<T>
    requires i < |s|
  {
    s[..i] + s[i + 1..]
  }

  // ----- the steps -----

  /** The head of the drain loop: stop, or take the next job and gate it. */
  function Advance(c: Config, b: Bucket): Bucket {
    if b.waiters == [] then b.(phase := Idle, leader := None)
    else
      var i := PickIndex(c, b.clock, b.waiters);
      var taken := b.(waiters := RemoveAt(b.waiters, i), picks := b.picks + [b.waiters[i].id]);
      if c.minInterval <= 0.0 || b.lastCall.None? || b.clock - b.lastCall.value >= c.minInterval
      then StartCall(taken, b.waiters[i])
      else taken.(phase := Gating(b.waiters[i], b.clock + (c.minInterval - (b.clock - b.lastCall.value))))
  }

  function StartCall(b: Bucket, job: Job): Bucket {
    b.(phase := Running(job), runs := b.runs + [Run(job.id, b.clock, InFlight)])
  }

  function Resolve(futures: map<nat, Future>, s: nat, f: Future): (r: map<nat, Future>)
    ensures r.Keys == futures.Keys
  {
    if s in futures && futures[s] == Pending then futures[s := f] else futures
  }

  function EndRun(runs: seq<Run>, ending: Ending): seq<Run> {
    if runs == [] then runs else runs[|runs| - 1 := runs[|runs| - 1].(ending := ending)]
  }

  function Pow2(n: nat): int { if n == 0 then 1 else 2 * Pow2(n - 1) }

  /** The call is over and its caller gets the answer. */
  function Settle(b: Bucket, f: Future): Bucket
    requires b.phase.Running?
  {
    b.(lastCall := Some(b.clock), runs := EndRun(b.runs, Ended(b.clock)),
       futures := Resolve(b.futures, b.phase.job.id, f),
       calls := if f == Result then b.calls + 1 else b.calls,
       failures := if f == Result then b.failures else b.failures + 1)
  }

  /** The call was refused for its count: the same job sleeps and queues again, keeping its enqueue time. */
  function Retry(c: Config, b: Bucket): Bucket
    requires b.phase.Running?
  {
    var job := b.phase.job;
    b.(lastCall := Some(b.clock), runs := EndRun(b.runs, Ended(b.clock)), retries := b.retries + 1,
       phase := BackingOff(job.(attempts := job.attempts + 1), b.clock + c.backoffBase * Pow2(job.attempts) as real))
  }

  function FinishCall(c: Config, b: Bucket, o: Outcome): Bucket
    requires b.phase.Running?
  {
    if o.Raised? && o.retryable && b.phase.job.attempts < c.maxRetries then Retry(c, b)
    else Advance(c, Settle(b, if o.Returned? then Result else Exception))
  }

  function LeaderId(leader: Option<nat>): set<nat> { if leader.Some? then {leader.value} else {} }

  /** Futures of the waiters a cancelled leader wakes up. */
  function CancelAll(futures: map<nat, Future>, ws: seq<Job>): map<nat, Future> {
    if ws == [] then futures else CancelAll(Resolve(futures, ws[0].id, Cancelled), ws[1..])
  }

  function CancelDrain(b: Bucket): Bucket
    requires !b.phase.Idle?
  {
    var s := b.phase.job.id;
    b.(waiters := [], phase := Idle, leader := None, futures := CancelAll(b.futures, b.waiters),
       runs := if b.phase.Running? then EndRun(b.runs, Aborted) else b.runs,
       aborted := if b.phase.Running? then b.aborted + 1 else b.aborted,
       raised := b.raised + LeaderId(b.leader),
       lost := if s in b.futures && b.futures[s] == Pending && b.leader != Some(s) then b.lost + {s} else b.lost)
  }

  datatype Step =
    | Submit(id: nat, priority: Priority)
    | GateElapsed
    | CallFinished(outcome: Outcome)
    | BackoffElapsed
    | Tick(to: real)
    | CancelLeader
    | CancelWaiter(id: nat)

  /** One step; a step that cannot happen in this state changes nothing. */
  function Next(c: Config, b: Bucket, s: Step): Bucket {
    match s
    case Submit(n, p) =>
      if n < b.nextId then b
      else
        var queued := b.(waiters := b.waiters + [Job(n, p, b.clock, 0)], nextId := n + 1,
                         futures := b.futures[n := Pending]);
        if b.phase.Idle? then Advance(c, queued.(leader := Some(n))) else queued
    case GateElapsed =>
      if b.phase.Gating? && b.clock >= b.phase.wakeAt then StartCall(b, b.phase.job) else b
    case CallFinished(o) =>
      if b.phase.Running? then FinishCall(c, b, o) else b
    case BackoffElapsed =>
      if b.phase.BackingOff? && b.clock >= b.phase.wakeAt
      then Advance(c, b.(waiters := b.waiters + [b.phase.job])) else b
    case Tick(t) => if t >= b.clock then b.(clock := t) else b
    case CancelLeader => if b.phase.Idle? then b else CancelDrain(b)
    case CancelWaiter(n) =>
      if b.leader == Some(n) then b
      else b.(futures := Resolve(b.futures, n, Cancelled), lost := b.lost - {n})
  }

  function Reach(c: Config, b: Bucket, steps: seq<Step>): Bucket {
    if steps == [] then b else Next(c, Reach(c, b, steps[..|steps| - 1]), steps[|steps| - 1])
  }

  lemma {:induction false} ReachAppend(c: Config, b: Bucket, xs: seq<Step>, ys: seq<Step>)
    ensures Reach(c, b, xs + ys) == Reach(c, Reach(c, b, xs), ys)
  {
    hide Next;
    if ys == [] {
      assert xs + ys == xs;
    } else {
      var n := |ys| - 1;
      ReachAppend(c, b, xs, ys[..n]);
      assert (xs + ys)[..|xs + ys| - 1] == xs + ys[..n];
    }
  }
}
