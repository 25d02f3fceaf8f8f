/** Ageing, spacing and back-off of the queue in numbers. */
module TrQueueRanks {
  import opened TrQueue
  import opened TrQueueFairness
  import opened Wrappers

  // ----- ageing -----

  /** The job has waited `n` full ageing units. */
  ghost predicate Waited(c: Config, now: real, j: Job, n: nat) {
    c.agingS > 0.0 && n as real * c.agingS <= now - j.enqueued < (n + 1) as real * c.agingS
  }

  lemma QuotientBelow(x: real, m: real, a: real)
    requires a > 0.0 && x < m * a
    ensures x / a < m
  {
    var y := m * a;
    assert y / a == m;
    assert (y - x) / a > 0.0 && y / a - x / a == (y - x) / a;
  }

  lemma UnitsTruncate(x: real, a: real, n: nat)
    requires a > 0.0 && n as real * a <= x < (n + 1) as real * a
    ensures Truncate(x / a) == n
  {
    DivMonotone(n as real * a, x, a);
    MulDivCancel(n, a);
    QuotientBelow(x, (n + 1) as real, a);
    var q := x / a;
    assert n as real <= q < (n + 1) as real;
    assert q.Floor == n;
  }

  /** The numbers behind the priorities: each full ageing unit takes one off, down to that of KILL. */
  function Level(p: Priority, units: nat): nat {
    var base := if p.Kill? then 0 else if p.Boot? then 1 else 2;
    if base > units then base - units else 0
  }

  /** A job that has waited `n` full units counts `n` levels higher, but never above KILL; without ageing its level
      never changes. */
  lemma AgedLevel(c: Config, now: real, j: Job, n: nat)
    ensures Waited(c, now, j, n) ==> Effective(c, now, j) == Level(j.priority, n)
    ensures c.agingS <= 0.0 ==> Effective(c, now, j) == Level(j.priority, 0)
  {
    if Waited(c, now, j, n) {
      UnitsTruncate(now - j.enqueued, c.agingS, n);
    }
  }

  ghost predicate MoreUrgent(a: Priority, b: Priority) {
    (a.Kill? && !b.Kill?) || (a.Boot? && b.Routine?)
  }

  /** Ageing plays no part yet. */
  ghost predicate Young(c: Config, now: real, j: Job) {
    c.agingS <= 0.0 || 0.0 <= now - j.enqueued < c.agingS
  }

  /** Of two jobs that have both waited less than an ageing unit, the more urgent goes first, whatever the ids; equally
      urgent ones go in the order of their ids. */
  lemma YoungGoByPriority(c: Config, now: real, a: Job, b: Job)
    requires Young(c, now, a) && Young(c, now, b)
    ensures Before(c, now, a, b)
       <==> MoreUrgent(a.priority, b.priority) || (a.priority == b.priority && a.id < b.id)
  {
    assert c.agingS > 0.0 ==> Waited(c, now, a, 0) && Waited(c, now, b, 0);
    AgedLevel(c, now, a, 0);
    AgedLevel(c, now, b, 0);
  }

  /** The job a scan takes is at the least level of all, and the oldest there. */
  ghost predicate Leads(c: Config, now: real, ws: seq<Job>, best: nat)
    requires best < |ws|
  {
    && (forall i, m: nat, n: nat ::
          0 <= i < |ws| && Waited(c, now, ws[best], m) && Waited(c, now, ws[i], n) ==>
            && Level(ws[best].priority, m) <= Level(ws[i].priority, n)
            && (Level(ws[best].priority, m) == Level(ws[i].priority, n) ==> ws[best].id <= ws[i].id))
    && (forall i :: 0 <= i < |ws| && Young(c, now, ws[best]) && Young(c, now, ws[i]) ==>
          && !MoreUrgent(ws[i].priority, ws[best].priority)
          && (ws[i].priority == ws[best].priority ==> ws[best].id <= ws[i].id))
  }

  /** What the scan picks, in levels and priorities. */
  lemma PickLeads(c: Config, now: real, ws: seq<Job>)
    requires ws != []
    ensures Leads(c, now, ws, PickIndex(c, now, ws))
  {
    hide PickIndex, Level, Waited, Young;
    var best := PickIndex(c, now, ws);
    forall i | 0 <= i < |ws| ensures !Before(c, now, ws[i], ws[best]) {
      PickIsFirst(c, now, ws, i);
    }
    forall i, m: nat, n: nat | 0 <= i < |ws| && Waited(c, now, ws[best], m) && Waited(c, now, ws[i], n)
      ensures Level(ws[best].priority, m) <= Level(ws[i].priority, n)
      ensures Level(ws[best].priority, m) == Level(ws[i].priority, n) ==> ws[best].id <= ws[i].id
    {
      AgedLevel(c, now, ws[best], m);
      AgedLevel(c, now, ws[i], n);
    }
    forall i | 0 <= i < |ws| && Young(c, now, ws[best]) && Young(c, now, ws[i])
      ensures !MoreUrgent(ws[i].priority, ws[best].priority)
      ensures ws[i].priority == ws[best].priority ==> ws[best].id <= ws[i].id
    {
      YoungGoByPriority(c, now, ws[i], ws[best]);
    }
  }

  // ----- spacing -----

  /** A picked job is called at once if the interval since the last call has passed, and otherwise waits exactly until
      it has. */
  lemma CalledWhenDue(c: Config, b: Bucket)
    requires b.waiters != []
    ensures var a := Advance(c, b);
            if c.minInterval <= 0.0 || b.lastCall.None? || b.clock >= b.lastCall.value + c.minInterval
            then a.phase.Running? else a.phase.Gating? && a.phase.wakeAt == b.lastCall.value + c.minInterval
  {
    hide PickIndex, RemoveAt;
  }

  /** A submitted job starts to age at its submission, with all its retries left; on an idle bucket it is picked at
      once. */
  lemma SubmittedNow(c: Config, b: Bucket, n: nat, p: Priority)
    requires n >= b.nextId && (b.phase.Idle? ==> b.waiters == [])
    ensures var a := Next(c, b, Submit(n, p));
            var j := Job(n, p, b.clock, 0);
            && n in a.futures && a.futures[n] == Pending
            && if b.phase.Idle? then !a.phase.Idle? && a.phase.job == j && a.leader == Some(n) && a.waiters == []
               else a.waiters == b.waiters + [j] && a.phase == b.phase
  {
  }

  // ----- back-off -----

  /** How long the job of a refused call sleeps. */
  ghost function Sleep(c: Config, b: Bucket): real
    requires b.phase.Running?
  {
    Retry(c, b).phase.wakeAt - b.clock
  }

  /** The first sleep is the configured one, and each further one is twice the one before. */
  lemma SleepDoubles(c: Config, first: Bucket, b: Bucket, later: Bucket)
    requires first.phase.Running? && first.phase.job.attempts == 0
    requires b.phase.Running? && later.phase.Running? && later.phase.job.attempts == b.phase.job.attempts + 1
    ensures Sleep(c, first) == c.backoffBase
    ensures Sleep(c, later) == 2.0 * Sleep(c, b)
  {
    var n := b.phase.job.attempts;
    assert Pow2(n + 1) as real == 2.0 * Pow2(n) as real;
    Twice(c.backoffBase, Pow2(n) as real);
  }

  lemma Twice(x: real, y: real)
    ensures x * (2.0 * y) == 2.0 * (x * y)
  {
  }

  /** A call is repeated if and only if it was refused for its count and retries are left; then the job keeps its
      priority and its time of enqueueing. */
  lemma RefusedIsRetried(c: Config, b: Bucket, o: Outcome)
    requires b.phase.Running?
    ensures var a := FinishCall(c, b, o);
            if o == Raised(true) && b.phase.job.attempts < c.maxRetries
            then a.phase.BackingOff? && a.phase.job == b.phase.job.(attempts := b.phase.job.attempts + 1)
                 && a.futures == b.futures && a.waiters == b.waiters
            else !a.phase.BackingOff?
                 && (b.phase.job.id in b.futures && b.futures[b.phase.job.id] == Pending ==>
                       a.futures == b.futures[b.phase.job.id := if o == Returned then Result else Exception])
  {
    hide PickIndex, RemoveAt, EndRun;
  }
}
