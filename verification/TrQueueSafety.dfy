/** What every run of the queue keeps: each future is completed at most once, retries are bounded, calls do
    not overlap and keep their distance. */
module TrQueueSafety {
  import opened Wrappers
  import opened TrQueue

  function Hand(b: Bucket): Option<Job> {
    if b.phase.Idle? then None else Some(b.phase.job)
  }

  function Ids(ws: seq<Job>): set<nat> { set k | 0 <= k < |ws| :: ws[k].id }

  function HandId(hand: Option<Job>): set<nat> { if hand.Some? then {hand.value.id} else {} }

  // ----- who holds which job -----

  ghost predicate JobOk(c: Config, b: Bucket, j: Job) {
    && j.id < b.nextId && j.id in b.futures && j.id !in b.lost && j.id !in b.raised
    && j.enqueued <= b.clock && j.attempts <= c.maxRetries
  }

  /** Jobs are numbered and enqueued in the same order. */
  ghost predicate InOrder(j: Job, k: Job) {
    && j.id != k.id
    && (j.id < k.id ==> j.enqueued <= k.enqueued)
    && (k.id < j.id ==> k.enqueued <= j.enqueued)
  }

  ghost predicate JobsInv(c: Config, b: Bucket, hand: Option<Job>) {
    && (forall k :: 0 <= k < |b.waiters| ==> JobOk(c, b, b.waiters[k]))
    && (forall i, k :: 0 <= i < k < |b.waiters| ==> InOrder(b.waiters[i], b.waiters[k]))
    && (hand.Some? ==> JobOk(c, b, hand.value) && forall k :: 0 <= k < |b.waiters| ==> InOrder(b.waiters[k], hand.value))
  }

  /** A future is pending only while its job is queued, in hand, or left behind by a cancelled leader. */
  ghost predicate FuturesInv(b: Bucket, hand: Option<Job>) {
    && (forall n <- b.futures :: n < b.nextId)
    && (forall n <- b.lost :: n in b.futures && b.futures[n] == Pending)
    && (forall n <- b.futures :: b.futures[n] == Pending ==> n in Ids(b.waiters) + HandId(hand) + b.lost + b.raised)
  }

  /** A leader has not raised yet, and no stranded caller ever led. */
  ghost predicate LeaderInv(b: Bucket) {
    && (b.leader.Some? ==> b.leader.value < b.nextId && b.leader.value !in b.lost && b.leader.value !in b.raised)
    && (forall n <- b.raised :: n < b.nextId && n !in b.lost)
  }

  ghost predicate HoldInv(c: Config, b: Bucket) {
    && (b.phase.Idle? ==> b.waiters == [] && b.leader.None?)
    && JobsInv(c, b, Hand(b))
    && FuturesInv(b, Hand(b))
    && LeaderInv(b)
  }

  lemma IdsOfRemove(ws: seq<Job>, i: nat)
    requires i < |ws|
    ensures Ids(ws) == Ids(RemoveAt(ws, i)) + {ws[i].id}
  {
    var rest := RemoveAt(ws, i);
    forall k | 0 <= k < |ws| ensures ws[k].id in Ids(rest) + {ws[i].id} {
      if k < i {
        assert rest[k] == ws[k];
      } else if k > i {
        assert rest[k - 1] == ws[k];
      }
    }
  }

  lemma IdsOfPush(ws: seq<Job>, j: Job)
    ensures Ids(ws + [j]) == Ids(ws) + {j.id}
  {
    assert (ws + [j])[|ws|] == j;
    forall k | 0 <= k < |ws| ensures ws[k].id in Ids(ws + [j]) {
      assert (ws + [j])[k] == ws[k];
    }
  }

  lemma TakeHolds(c: Config, b: Bucket, i: nat)
    requires JobsInv(c, b, None) && FuturesInv(b, None) && i < |b.waiters|
    ensures var t := b.(waiters := RemoveAt(b.waiters, i));
            JobsInv(c, t, Some(b.waiters[i])) && FuturesInv(t, Some(b.waiters[i]))
  {
    assert JobsInv(c, b.(waiters := RemoveAt(b.waiters, i)), Some(b.waiters[i])) by {
      hide FuturesInv, Ids, JobOk, InOrder;
      var rest := RemoveAt(b.waiters, i);
      forall k | 0 <= k < |rest| ensures JobOk(c, b, rest[k]) && InOrder(rest[k], b.waiters[i]) {
        assert rest[k] == b.waiters[if k < i then k else k + 1];
        OrderFlips(b.waiters[if k < i then k else k + 1], b.waiters[i]);
      }
      assert forall k :: 0 <= k < |rest| ==> rest[k] == b.waiters[if k < i then k else k + 1];
      JobOkFrame(c, b, b.(waiters := rest));
    }
    hide JobsInv;
    IdsOfRemove(b.waiters, i);
    hide RemoveAt, Ids;
  }

  lemma OrderFlips(j: Job, k: Job)
    ensures InOrder(j, k) == InOrder(k, j)
  {
  }

  lemma JobOkFrame(c: Config, b: Bucket, b': Bucket)
    requires b'.nextId >= b.nextId && b'.clock >= b.clock
    requires b.futures.Keys <= b'.futures.Keys && b'.lost <= b.lost && b'.raised <= b.raised
    ensures forall j :: JobOk(c, b, j) ==> JobOk(c, b', j)
  {
  }

  lemma AdvanceHolds(c: Config, b: Bucket)
    requires JobsInv(c, b, None) && FuturesInv(b, None) && LeaderInv(b)
    ensures HoldInv(c, Advance(c, b))
  {
    hide PickIndex;
    if b.waiters != [] {
      var i := PickIndex(c, b.clock, b.waiters);
      TakeHolds(c, b, i);
      hide RemoveAt;
    }
  }

  lemma PushHolds(c: Config, b: Bucket, j: Job)
    requires JobsInv(c, b, Some(j)) && FuturesInv(b, Some(j))
    ensures var p := b.(waiters := b.waiters + [j]); JobsInv(c, p, None) && FuturesInv(p, None)
  {
    IdsOfPush(b.waiters, j);
  }

  function Enqueue(b: Bucket, n: nat, p: Priority): Bucket {
    b.(waiters := b.waiters + [Job(n, p, b.clock, 0)], nextId := n + 1, futures := b.futures[n := Pending])
  }

  /** The idle bucket's `submit`: the caller leads. */
  function Lead(b: Bucket, n: nat, p: Priority): Bucket {
    Enqueue(b, n, p).(leader := Some(n))
  }

  lemma LeadHolds(c: Config, b: Bucket, n: nat, p: Priority)
    requires JobsInv(c, b, None) && FuturesInv(b, None) && LeaderInv(b) && n >= b.nextId
    ensures var q := Lead(b, n, p); JobsInv(c, q, None) && FuturesInv(q, None) && LeaderInv(q)
  {
    EnqueueHolds(c, b, n, p, None);
    LeaderIrrelevant(c, Enqueue(b, n, p), Lead(b, n, p));
    hide JobsInv;
  }

  lemma LeaderIrrelevant(c: Config, b: Bucket, t: Bucket)
    requires t == b.(leader := t.leader)
    ensures JobsInv(c, b, None) ==> JobsInv(c, t, None)
  {
  }

  lemma EnqueueHolds(c: Config, b: Bucket, n: nat, p: Priority, hand: Option<Job>)
    requires JobsInv(c, b, hand) && FuturesInv(b, hand) && LeaderInv(b) && n >= b.nextId
    ensures var q := Enqueue(b, n, p); JobsInv(c, q, hand) && FuturesInv(q, hand) && LeaderInv(q)
  {
    var job, q := Job(n, p, b.clock, 0), Enqueue(b, n, p);
    assert JobsInv(c, q, hand) by {
      assert JobOk(c, q, job);
      assert forall j :: JobOk(c, b, j) ==> InOrder(j, job) && InOrder(job, j);
      JobOkFrame(c, b, q);
      hide FuturesInv, JobOk, InOrder;
    }
    hide JobsInv;
    IdsOfPush(b.waiters, job);
    hide Ids;
  }

  lemma SubmitIs(c: Config, b: Bucket, n: nat, p: Priority)
    ensures Next(c, b, Submit(n, p))
         == if n < b.nextId then b
            else if b.phase.Idle? then Advance(c, Lead(b, n, p)) else Enqueue(b, n, p)
  {
    hide Advance;
  }

  lemma SubmitHolds(c: Config, b: Bucket, n: nat, p: Priority)
    requires HoldInv(c, b)
    ensures HoldInv(c, Next(c, b, Submit(n, p)))
  {
    hide JobsInv, FuturesInv, LeaderInv, Advance, Next;
    SubmitIs(c, b, n, p);
    if n >= b.nextId {
      if b.phase.Idle? {
        LeadHolds(c, b, n, p);
        AdvanceHolds(c, Lead(b, n, p));
      } else {
        EnqueueHolds(c, b, n, p, Hand(b));
      }
    }
  }

  lemma ResolveHolds(c: Config, b: Bucket, job: Job, f: Future)
    requires JobsInv(c, b, Some(job)) && FuturesInv(b, Some(job)) && f != Pending
    ensures var r := b.(futures := Resolve(b.futures, job.id, f)); JobsInv(c, r, None) && FuturesInv(r, None)
  {
  }

  lemma SettleHolds(c: Config, b: Bucket, f: Future)
    requires HoldInv(c, b) && b.phase.Running? && f != Pending
    ensures JobsInv(c, Settle(b, f), None) && FuturesInv(Settle(b, f), None) && LeaderInv(Settle(b, f))
  {
    ResolveHolds(c, b, b.phase.job, f);
    hide Resolve, EndRun, Ids;
  }

  lemma FinishHolds(c: Config, b: Bucket, o: Outcome)
    requires HoldInv(c, b) && b.phase.Running?
    ensures HoldInv(c, FinishCall(c, b, o))
  {
    hide Advance, Settle, EndRun, Ids;
    if !(o.Raised? && o.retryable && b.phase.job.attempts < c.maxRetries) {
      var f := if o.Returned? then Result else Exception;
      SettleHolds(c, b, f);
      AdvanceHolds(c, Settle(b, f));
    }
  }

  lemma {:induction false} CancelAllIs(futures: map<nat, Future>, ws: seq<Job>)
    ensures var r := CancelAll(futures, ws);
            && r.Keys == futures.Keys
            && forall n <- futures :: r[n] == if futures[n] == Pending && n in Ids(ws) then Cancelled else futures[n]
  {
    if ws != [] {
      CancelAllIs(Resolve(futures, ws[0].id, Cancelled), ws[1..]);
      assert ws == [ws[0]] + ws[1..];
      IdsOfRemove(ws, 0);
      assert RemoveAt(ws, 0) == ws[1..];
    }
  }

  lemma CancelHolds(c: Config, b: Bucket)
    requires HoldInv(c, b) && !b.phase.Idle?
    ensures HoldInv(c, CancelDrain(b))
  {
    CancelAllIs(b.futures, b.waiters);
    assert b.phase.job.id !in Ids(b.waiters);
  }

  lemma StepHolds(c: Config, b: Bucket, s: Step)
    requires HoldInv(c, b)
    ensures HoldInv(c, Next(c, b, s))
  {
    hide Advance, FinishCall, CancelDrain;
    match s
    case Submit(n, p) => SubmitHolds(c, b, n, p);
    case GateElapsed =>
    case CallFinished(o) => if b.phase.Running? { FinishHolds(c, b, o); }
    case BackoffElapsed =>
      if b.phase.BackingOff? && b.clock >= b.phase.wakeAt {
        PushHolds(c, b, b.phase.job);
        AdvanceHolds(c, b.(waiters := b.waiters + [b.phase.job]));
      }
    case Tick(t) =>
    case CancelLeader => if !b.phase.Idle? { CancelHolds(c, b); }
    case CancelWaiter(n) =>
  }

  lemma {:induction false} RunHolds(c: Config, clock: real, steps: seq<Step>)
    ensures HoldInv(c, Reach(c, Fresh(clock), steps))
  {
    hide Next;
    if steps != [] {
      var n := |steps| - 1;
      RunHolds(c, clock, steps[..n]);
      StepHolds(c, Reach(c, Fresh(clock), steps[..n]), steps[n]);
    }
  }

  // ----- a future is completed at most once, and left behind only by a cancelled leader -----

  ghost predicate Done(b: Bucket, n: nat) { n in b.futures && b.futures[n] != Pending }

  lemma AdvanceKeepsFutures(c: Config)
    ensures forall b :: Advance(c, b).futures == b.futures && Advance(c, b).lost == b.lost
                        && Advance(c, b).raised == b.raised
  {
    hide PickIndex;
  }

  lemma StepKeepsDone(c: Config, b: Bucket, s: Step, n: nat)
    requires HoldInv(c, b) && Done(b, n)
    ensures Done(Next(c, b, s), n) && Next(c, b, s).futures[n] == b.futures[n]
  {
    AdvanceKeepsFutures(c);
    CancelAllIs(b.futures, b.waiters);
    hide Advance, PickIndex, CancelAll;
  }

  /** Once completed, a future never changes again, whatever else happens in the bucket. */
  lemma {:induction false} CompletedOnce(c: Config, clock: real, before: seq<Step>, after: seq<Step>, n: nat)
    requires Done(Reach(c, Fresh(clock), before), n)
    ensures Done(Reach(c, Fresh(clock), before + after), n)
    ensures Reach(c, Fresh(clock), before + after).futures[n] == Reach(c, Fresh(clock), before).futures[n]
  {
    hide Next;
    if after == [] {
      assert before + after == before;
    } else {
      var m := |after| - 1;
      CompletedOnce(c, clock, before, after[..m], n);
      var mid := before + after[..m];
      assert (before + after)[..|before + after| - 1] == mid;
      RunHolds(c, clock, mid);
      StepKeepsDone(c, Reach(c, Fresh(clock), mid), after[m], n);
    }
  }

  /** The caller of job `n` is still waiting: its `submit` has neither returned nor raised. */
  ghost predicate Waiting(b: Bucket, n: nat) {
    n in b.futures && b.futures[n] == Pending && n !in b.raised
  }

  /** The leader holds the unfinished job of another caller, `n`. */
  ghost predicate HoldsForOther(b: Bucket, n: nat) {
    && Hand(b).Some? && Hand(b).value.id == n && b.leader != Some(n)
    && n in b.futures && b.futures[n] == Pending
  }

  /** Step `k` cancels a leader that holds the unfinished job of another caller, `n`, who never gives up. */
  ghost predicate StrandedAt(c: Config, clock: real, steps: seq<Step>, k: nat, n: nat) {
    && k < |steps| && steps[k].CancelLeader?
    && HoldsForOther(Reach(c, Fresh(clock), steps[..k]), n)
    && forall j :: k < j < |steps| ==> steps[j] != CancelWaiter(n)
  }

  lemma LostStep(c: Config, b: Bucket, s: Step, n: nat)
    requires HoldInv(c, b)
    ensures n in Next(c, b, s).lost
       <==> || (n in b.lost && s != CancelWaiter(n))
            || (s.CancelLeader? && HoldsForOther(b, n))
  {
    hide Advance, PickIndex, CancelAll, JobOk, InOrder, Ids;
    AdvanceKeepsFutures(c);
  }

  /** The callers left behind are exactly those stranded at some step of the run. */
  lemma {:induction false} LostIff(c: Config, clock: real, steps: seq<Step>, n: nat)
    ensures n in Reach(c, Fresh(clock), steps).lost <==> exists k: nat :: StrandedAt(c, clock, steps, k, n)
  {
    hide Next, HoldInv, HoldsForOther;
    if steps == [] {
    } else {
      var m := |steps| - 1;
      var rest := steps[..m];
      LostIff(c, clock, rest, n);
      RunHolds(c, clock, rest);
      LostStep(c, Reach(c, Fresh(clock), rest), steps[m], n);
      forall k | 0 <= k < m ensures StrandedAt(c, clock, steps, k, n)
                                    <==> StrandedAt(c, clock, rest, k, n) && steps[m] != CancelWaiter(n) {
        StrandedLonger(c, clock, steps, k, n);
      }
      StrandedLast(c, clock, steps, n);
      if exists k: nat :: StrandedAt(c, clock, steps, k, n) {
        var k: nat :| StrandedAt(c, clock, steps, k, n);
        assert k < m ==> StrandedAt(c, clock, rest, k, n);
      }
      if exists k: nat :: StrandedAt(c, clock, rest, k, n) {
        var k: nat :| StrandedAt(c, clock, rest, k, n);
        assert steps[m] != CancelWaiter(n) ==> StrandedAt(c, clock, steps, k, n);
      }
    }
  }

  lemma StrandedLonger(c: Config, clock: real, steps: seq<Step>, k: nat, n: nat)
    requires steps != [] && k < |steps| - 1
    ensures StrandedAt(c, clock, steps, k, n)
       <==> StrandedAt(c, clock, steps[..|steps| - 1], k, n) && steps[|steps| - 1] != CancelWaiter(n)
  {
    hide Reach, HoldsForOther;
    var rest := steps[..|steps| - 1];
    assert rest[..k] == steps[..k];
    if StrandedAt(c, clock, rest, k, n) && steps[|steps| - 1] != CancelWaiter(n) {
      forall j | k < j < |steps| ensures steps[j] != CancelWaiter(n) {
        assert j < |rest| ==> steps[j] == rest[j];
      }
    }
  }

  lemma StrandedLast(c: Config, clock: real, steps: seq<Step>, n: nat)
    requires steps != []
    ensures StrandedAt(c, clock, steps, |steps| - 1, n)
       <==> steps[|steps| - 1].CancelLeader? && HoldsForOther(Reach(c, Fresh(clock), steps[..|steps| - 1]), n)
  {
    hide Reach, HoldsForOther;
  }

  /** When the bucket is idle, a caller is still waiting if and only if somebody else's leader was cancelled with its
      job in hand and the caller has not given up since. */
  lemma QuietMeansAllDone(c: Config, clock: real, steps: seq<Step>, n: nat)
    requires Reach(c, Fresh(clock), steps).phase.Idle?
    requires n in Reach(c, Fresh(clock), steps).futures
    ensures Waiting(Reach(c, Fresh(clock), steps), n) <==> exists k: nat :: StrandedAt(c, clock, steps, k, n)
  {
    hide Reach, StrandedAt;
    RunHolds(c, clock, steps);
    LostIff(c, clock, steps, n);
  }

  lemma StepLoses(c: Config, b: Bucket, s: Step)
    ensures !s.CancelLeader? ==> Next(c, b, s).lost <= b.lost && Next(c, b, s).raised == b.raised
  {
    AdvanceKeepsFutures(c);
    hide Advance, PickIndex, CancelAll;
  }

  lemma {:induction false} NoCancelNoLoss(c: Config, clock: real, steps: seq<Step>)
    requires forall k :: 0 <= k < |steps| ==> !steps[k].CancelLeader?
    ensures Reach(c, Fresh(clock), steps).lost == {} && Reach(c, Fresh(clock), steps).raised == {}
  {
    hide Next;
    if steps != [] {
      var n := |steps| - 1;
      NoCancelNoLoss(c, clock, steps[..n]);
      StepLoses(c, Reach(c, Fresh(clock), steps[..n]), steps[n]);
    }
  }

  /** Without a cancelled leader, every submitted job is completed by the time the bucket is idle. */
  lemma EveryJobCompletes(c: Config, clock: real, steps: seq<Step>, n: nat)
    requires forall k :: 0 <= k < |steps| ==> !steps[k].CancelLeader?
    requires Reach(c, Fresh(clock), steps).phase.Idle?
    requires n in Reach(c, Fresh(clock), steps).futures
    ensures Done(Reach(c, Fresh(clock), steps), n)
  {
    hide Reach;
    NoCancelNoLoss(c, clock, steps);
    RunHolds(c, clock, steps);
  }

  /** A leader cancelled while it holds somebody else's job strands that caller: only its own cancellation can free
      it. */
  lemma CancelledLeaderStrands(c: Config, clock: real, before: seq<Step>, after: seq<Step>, b: Bucket, job: Job)
    requires b == Reach(c, Fresh(clock), before)
    requires Hand(b) == Some(job) && b.leader != Some(job.id)
    requires job.id in b.futures && b.futures[job.id] == Pending
    requires forall k :: 0 <= k < |after| ==> after[k] != CancelWaiter(job.id)
    ensures Waiting(Reach(c, Fresh(clock), before + [CancelLeader] + after), job.id)
  {
    hide Reach, Waiting;
    var steps, k := before + [CancelLeader] + after, |before|;
    assert steps[..k] == before;
    assert forall j :: k < j < |steps| ==> steps[j] == after[j - k - 1];
    assert StrandedAt(c, clock, steps, k, job.id);
    LostIff(c, clock, steps, job.id);
    RunHolds(c, clock, steps);
    LostWaits(c, Reach(c, Fresh(clock), steps), job.id);
  }

  lemma LostWaits(c: Config, b: Bucket, n: nat)
    requires HoldInv(c, b) && n in b.lost
    ensures Waiting(b, n)
  {
  }

  const FIRST := Job(0, Routine, 0.0, 0)
  const SECOND := Job(1, Routine, 0.0, 0)
  const PLAIN := Config(0.0, 0.0, 0, 0.0)

  lemma TwoSubmitted()
    ensures var b := Next(PLAIN, Next(PLAIN, Fresh(0.0), Submit(0, Routine)), Submit(1, Routine));
            && b.phase == Running(FIRST) && b.waiters == [SECOND] && b.leader == Some(0)
            && b.futures == map[0 := Pending, 1 := Pending] && b.raised == {} && b.lost == {}
  {
    var b := Next(PLAIN, Fresh(0.0), Submit(0, Routine));
    assert [FIRST][0] == FIRST && RemoveAt([FIRST], 0) == [];
    assert b.phase == Running(FIRST) && b.waiters == [] && b.leader == Some(0) && b.futures == map[0 := Pending];
  }

  lemma FirstReturned(b: Bucket)
    requires b.phase == Running(FIRST) && b.waiters == [SECOND] && b.leader == Some(0)
    requires b.futures == map[0 := Pending, 1 := Pending] && b.raised == {} && b.lost == {}
    ensures var t := Next(PLAIN, b, CallFinished(Returned));
            && t.phase == Running(SECOND) && t.waiters == [] && t.leader == Some(0)
            && t.futures == map[0 := Result, 1 := Pending] && t.raised == {} && t.lost == {}
  {
    hide EndRun;
    assert RemoveAt([SECOND], 0) == [];
    assert PickIndex(PLAIN, b.clock, [SECOND]) == 0;
  }

  /** It does happen: the leader of two submitted jobs has its own answer and is cancelled during the other's call. */
  lemma SecondCallerStranded()
    ensures var steps := [Submit(0, Routine), Submit(1, Routine), CallFinished(Returned), CancelLeader];
            var b := Reach(PLAIN, Fresh(0.0), steps);
            b.phase.Idle? && Done(b, 0) && Waiting(b, 1)
  {
    hide Reach, Advance, EndRun;
    FourSteps(PLAIN, Fresh(0.0), Submit(0, Routine), Submit(1, Routine), CallFinished(Returned), CancelLeader);
    TwoSubmitted();
    FirstReturned(Next(PLAIN, Next(PLAIN, Fresh(0.0), Submit(0, Routine)), Submit(1, Routine)));
  }

  lemma FourSteps(c: Config, b: Bucket, s: Step, t: Step, u: Step, v: Step)
    ensures Reach(c, b, [s, t, u, v]) == Next(c, Next(c, Next(c, Next(c, b, s), t), u), v)
  {
    hide Next;
    assert [s, t, u, v][..3] == [s, t, u] && [s, t, u][..2] == [s, t] && [s, t][..1] == [s] && [s][..0] == [];
    assert Reach(c, b, [s][..0]) == b;
    assert Reach(c, b, [s]) == Next(c, b, s);
    assert Reach(c, b, [s, t]) == Next(c, Reach(c, b, [s]), t);
    assert Reach(c, b, [s, t, u]) == Next(c, Reach(c, b, [s, t]), u);
  }
}
