/** Which orders reach the broker while a bucket is locked: the gate in front of the order coroutines, the daily-loss
    latch and the quarantine beside them. */
module EntryLockout {
  import DailyLoss
  import OrderLedger
  import OrdersDb
  import OrderRuns
  import OrderRunsHistory
  import OrderRunsSafety
  import OrderRunsTheorems
  import opened RiskGate
  import opened Wrappers

  /** An order the gate let through, with the snapshot it was judged against. */
  datatype Admission = Admission(order: Intent, ctx: Context)

  /** One bucket of the server: the shared order system, the bucket's risk row, the halt events emitted, and the
      orders that got past the gate. */
  datatype Desk = Desk(bucket: Bucket, sys: OrderRuns.Sys, risk: Option<DailyLoss.RiskState>, halts: nat,
                       admitted: seq<Admission>)

  datatype Event =
    | Attempt(pid: nat, env: Env, order: Intent, ctx: Context, account: Option<nat>)  // a call of `place`
    | Orders(e: OrderRuns.Event)                                                      // any other order step
    | Evaluated(t: DailyLoss.Tick, lim: DailyLoss.LossLimits)
    | Bumped(delta: real)                                                             // notional of an accepted order

  predicate MarketIn(market: string, b: Bucket) {
    match b
    case Paper => market == MarketName(OverseasFutures)
    case Live => market == MarketName(KoreaStock) || market == MarketName(OverseasStock)
  }

  /** The stored market names tell the buckets of the markets. */
  lemma BucketsAgree(m: Market, b: Bucket)
    requires !m.Unlisted?
    ensures MarketIn(MarketName(m), b) <==> if m.OverseasFutures? then b.Paper? else b.Live?
    ensures BucketOf(m) == Some(b) <==> MarketIn(MarketName(m), b)
  {
    assert "korea_stock"[0] == 'k' && "overseas_stock"[0] == 'o' && "overseas_futureoption"[0] == 'o';
    assert "overseas_stock"[9] == 's' && "overseas_futureoption"[9] == 'f';
  }

  predicate InBucket(row: OrderLedger.Row, b: Bucket) {
    MarketIn(row.market, b)
  }

  /** `has_quarantined`. */
  predicate HasQuarantined(rows: seq<OrderLedger.Row>, b: Bucket) {
    exists i :: 0 <= i < |rows| && rows[i].status.Quarantined? && InBucket(rows[i], b)
  }

  /** The loop behind the query. */
  method QueryQuarantined(rows: seq<OrderLedger.Row>, b: Bucket) returns (found: bool)
    ensures found == HasQuarantined(rows, b)
    ensures found <==> exists i :: 0 <= i < |rows| && rows[i].status.Quarantined?
                                   && if b.Paper? then rows[i].market == "overseas_futureoption"
                                      else rows[i].market == "korea_stock" || rows[i].market == "overseas_stock"
  {
    var i := 0;
    while i < |rows|
      invariant 0 <= i <= |rows|
      invariant forall k :: 0 <= k < i ==> !(rows[k].status.Quarantined? && InBucket(rows[k], b))
    {
      if rows[i].status.Quarantined? && InBucket(rows[i], b) {
        return true;
      }
      i := i + 1;
    }
    return false;
  }

  /** What the gate sees now. */
  function EnvOf(d: Desk, env: Env): Env {
    env.(risk := d.risk, quarantined := HasQuarantined(d.sys.rows, d.bucket))
  }

  function RequestOf(o: Intent, account: Option<nat>): OrderRuns.Request {
    OrderRuns.Request(o.clientOrderId, account, MarketName(o.market), o.symbol, o.qty as real, o.price)
  }

  /** The only way an order of the bucket starts towards the broker is through the gate; the other bucket's orders
      come and go. */
  function Next(d: Desk, e: Event): Desk {
    match e
    case Attempt(pid, env, o, ctx, account) =>
      if BucketOf(o.market) != Some(d.bucket) || pid in d.sys.procs || !PreCheck(EnvOf(d, env), o, ctx).Ok() then d
      else
        d.(sys := OrderRuns.Next(d.sys, OrderRuns.Spawn(pid, OrderRuns.Place(RequestOf(o, account)))),
           admitted := d.admitted + [Admission(o, ctx)])
    case Orders(oe) =>
      if oe.Spawn? && oe.p.Place? && MarketIn(oe.p.req.market, d.bucket) then d
      else d.(sys := OrderRuns.Next(d.sys, oe))
    case Evaluated(t, lim) =>
      var (row, halted) := DailyLoss.Evaluate(d.risk, t, lim);
      d.(risk := Some(row), halts := d.halts + if halted then 1 else 0)
    case Bumped(delta) => d.(risk := DailyLoss.AddUsed(d.risk, delta))
  }

  function Run(d: Desk, events: seq<Event>): Desk {
    if events == [] then d else Next(Run(d, events[..|events| - 1]), events[|events| - 1])
  }

  /** Everything admitted after the first `from` orders truly reduces a position. */
  ghost predicate OnlyExitsSince(d: Desk, from: nat) {
    from <= |d.admitted|
    && forall i :: from <= i < |d.admitted| ==> EffectiveExit(d.admitted[i].order, d.admitted[i].ctx)
  }

  // ----- what is sent was admitted -----

  /** `p` is placing an order of the bucket under `key`. */
  ghost predicate Places(p: OrderRuns.Proc, rows: seq<OrderLedger.Row>, b: Bucket, key: string) {
    || (p.Place? && MarketIn(p.req.market, b) && p.req.key == key)
    || (OrderRuns.Owner(p).Some? && OrderRuns.Owner(p).value < |rows|
        && InBucket(rows[OrderRuns.Owner(p).value], b) && rows[OrderRuns.Owner(p).value].key == key)
  }

  /** An order of the bucket under `key` is on its way. */
  ghost predicate InFlight(d: Desk, key: string) {
    exists pid :: pid in d.sys.procs && Places(d.sys.procs[pid], d.sys.rows, d.bucket, key)
  }

  ghost predicate AdmittedSince(d: Desk, from: nat, key: string) {
    exists j :: from <= j < |d.admitted| && d.admitted[j].order.clientOrderId == key
  }

  /** `key` was in flight at `d0` or has been admitted since. */
  ghost predicate Accounted(d0: Desk, t: Desk, key: string) {
    InFlight(d0, key) || AdmittedSince(t, |d0.admitted|, key)
  }

  /** Everything of the bucket that is in flight, and everything sent since `d0`, is accounted for. */
  ghost predicate SendsAccounted(d0: Desk, t: Desk) {
    && OrderRunsTheorems.Inv(t.sys) && t.bucket == d0.bucket
    && |d0.admitted| <= |t.admitted| && |d0.sys.sent| <= |t.sys.sent|
    && (forall key :: InFlight(t, key) ==> Accounted(d0, t, key))
    && (forall i :: |d0.sys.sent| <= i < |t.sys.sent| ==> SendAccounted(d0, t, t.sys.sent[i]))
  }

  ghost predicate SendAccounted(d0: Desk, t: Desk, id: nat) {
    id < |t.sys.rows| && (InBucket(t.sys.rows[id], t.bucket) ==> Accounted(d0, t, t.sys.rows[id].key))
  }

  /** A step of the order system starts no placement of the bucket that was not in flight, and sends none. */
  lemma OrdersKeepFlight(d: Desk, oe: OrderRuns.Event)
    requires OrderRunsTheorems.Inv(d.sys)
    requires !(oe.Spawn? && oe.p.Place? && MarketIn(oe.p.req.market, d.bucket))
    ensures var t := d.(sys := OrderRuns.Next(d.sys, oe));
            && (forall key :: InFlight(t, key) ==> InFlight(d, key))
            && (t.sys.sent == d.sys.sent
                || (|t.sys.sent| == |d.sys.sent| + 1 && t.sys.sent[..|d.sys.sent|] == d.sys.sent
                    && var id := t.sys.sent[|d.sys.sent|];
                       id < |d.sys.rows|
                       && (InBucket(d.sys.rows[id], d.bucket) ==> InFlight(d, d.sys.rows[id].key))))
  {
    hide OrderRuns.Step, OrderRuns.Relock, OrdersDb.Move, OrderRunsTheorems.Inv, OrderRuns.Blocked;
    var t := d.(sys := OrderRuns.Next(d.sys, oe));
    if oe.Go? && oe.pid in d.sys.procs {
      GoKeepsFlight(d, oe.pid, oe.a);
    } else {
      OrderRunsHistory.NextExtends(d.sys, oe);
      forall key | InFlight(t, key) ensures InFlight(d, key) {
        var pid :| pid in t.sys.procs && Places(t.sys.procs[pid], t.sys.rows, d.bucket, key);
        QuietStep(d, oe, pid, key);
      }
    }
  }

  lemma QuietStep(d: Desk, oe: OrderRuns.Event, pid: nat, key: string)
    requires !oe.Go? || oe.pid !in d.sys.procs
    requires !(oe.Spawn? && oe.p.Place? && MarketIn(oe.p.req.market, d.bucket))
    requires OrderRunsTheorems.Inv(d.sys)
    requires var t := OrderRuns.Next(d.sys, oe);
             pid in t.procs && Places(t.procs[pid], t.rows, d.bucket, key)
    ensures pid in d.sys.procs && Places(d.sys.procs[pid], d.sys.rows, d.bucket, key)
  {
    hide OrderRuns.Step, OrderRuns.Relock, OrdersDb.Move, OrderRunsTheorems.Inv, OrderRuns.Blocked, MarketIn;
  }

  lemma GoKeepsFlight(d: Desk, pid: nat, a: OrderRuns.Answer)
    requires OrderRunsTheorems.Inv(d.sys) && pid in d.sys.procs
    ensures var t := d.(sys := OrderRuns.Next(d.sys, OrderRuns.Go(pid, a)));
            && (forall key :: InFlight(t, key) ==> InFlight(d, key))
            && (t.sys.sent == d.sys.sent
                || (|t.sys.sent| == |d.sys.sent| + 1 && t.sys.sent[..|d.sys.sent|] == d.sys.sent
                    && var id := t.sys.sent[|d.sys.sent|];
                       id < |d.sys.rows|
                       && (InBucket(d.sys.rows[id], d.bucket) ==> InFlight(d, d.sys.rows[id].key))))
  {
    hide OrderRuns.Step, OrderRuns.Relock, OrderRuns.Blocked, OrderRunsHistory.Extends;
    var p := d.sys.procs[pid];
    var eff := OrderRuns.Step(p, a, d.sys.rows, d.sys.sent);
    var t := d.(sys := OrderRuns.Next(d.sys, OrderRuns.Go(pid, a)));
    OrderRunsHistory.PlacementLineage(p, a, d.sys.rows, d.sys.sent);
    OrderRunsHistory.NextExtends(d.sys, OrderRuns.Go(pid, a));
    KnownOwners(d);
    forall key | InFlight(t, key) ensures InFlight(d, key) {
      var q :| q in t.sys.procs && Places(t.sys.procs[q], t.sys.rows, d.bucket, key);
      SameMover(d, pid, a, q, key);
    }
    if eff.sent != d.sys.sent && t.sys.sent == eff.sent {
      assert Places(p, d.sys.rows, d.bucket, d.sys.rows[p.id].key) <== InBucket(d.sys.rows[p.id], d.bucket);
    }
  }

  lemma KnownOwners(d: Desk)
    requires OrderRunsTheorems.Inv(d.sys)
    ensures forall q <- d.sys.procs :: OrderRuns.Owner(d.sys.procs[q]).Some?
              ==> OrderRuns.Owner(d.sys.procs[q]).value < |d.sys.rows|
  {
    forall q | q in d.sys.procs && OrderRuns.Owner(d.sys.procs[q]).Some?
      ensures OrderRuns.Owner(d.sys.procs[q]).value < |d.sys.rows|
    {
      assert OrderRunsSafety.ProcOk(d.sys.procs[q], d.sys.rows, d.sys.sent);
    }
  }

  lemma SameMover(d: Desk, pid: nat, a: OrderRuns.Answer, q: nat, key: string)
    requires pid in d.sys.procs
    requires forall r <- d.sys.procs :: OrderRuns.Owner(d.sys.procs[r]).Some?
               ==> OrderRuns.Owner(d.sys.procs[r]).value < |d.sys.rows|
    requires var t := OrderRuns.Next(d.sys, OrderRuns.Go(pid, a));
             q in t.procs && Places(t.procs[q], t.rows, d.bucket, key)
    ensures q in d.sys.procs && Places(d.sys.procs[q], d.sys.rows, d.bucket, key)
  {
    hide OrderRuns.Step, OrderRuns.Relock, OrderRuns.Blocked, MarketIn, OrderRuns.Owner;
    var t := OrderRuns.Next(d.sys, OrderRuns.Go(pid, a));
    OrderRunsHistory.PlacementLineage(d.sys.procs[pid], a, d.sys.rows, d.sys.sent);
    OrderRunsHistory.NextExtends(d.sys, OrderRuns.Go(pid, a));
    if OrderRuns.Owner(d.sys.procs[q]).Some? {
      var o := OrderRuns.Owner(d.sys.procs[q]).value;
      assert OrderRunsHistory.Later(d.sys.rows[o], t.rows[o]);
    }
  }

  lemma AccountedGrows(d0: Desk, d: Desk, t: Desk)
    requires d.admitted <= t.admitted
    ensures forall key :: Accounted(d0, d, key) ==> Accounted(d0, t, key)
  {
    forall key | AdmittedSince(d, |d0.admitted|, key) ensures AdmittedSince(t, |d0.admitted|, key) {
      var j :| |d0.admitted| <= j < |d.admitted| && d.admitted[j].order.clientOrderId == key;
      assert t.admitted[j] == d.admitted[j];
    }
  }

  lemma OrdersAccounted(d0: Desk, d: Desk, oe: OrderRuns.Event)
    requires SendsAccounted(d0, d)
    requires !(oe.Spawn? && oe.p.Place? && MarketIn(oe.p.req.market, d.bucket))
    ensures SendsAccounted(d0, d.(sys := OrderRuns.Next(d.sys, oe)))
  {
    hide OrderRuns.Next, OrderRunsTheorems.Inv, InFlight, MarketIn;
    var t := d.(sys := OrderRuns.Next(d.sys, oe));
    OrdersKeepFlight(d, oe);
    OrderRunsTheorems.NextKeeps(d.sys, oe);
    OrderRunsHistory.NextExtends(d.sys, oe);
    forall i | |d0.sys.sent| <= i < |t.sys.sent| ensures SendAccounted(d0, t, t.sys.sent[i]) {
      var id := t.sys.sent[i];
      if i < |d.sys.sent| {
        assert id == d.sys.sent[i] && SendAccounted(d0, d, id);
      }
      assert OrderRunsHistory.Later(d.sys.rows[id], t.sys.rows[id]);
    }
  }

  lemma AttemptAccounted(d0: Desk, d: Desk, pid: nat, o: Intent, ctx: Context, account: Option<nat>)
    requires SendsAccounted(d0, d) && pid !in d.sys.procs
    ensures var p := OrderRuns.Place(RequestOf(o, account));
            SendsAccounted(d0, d.(sys := OrderRuns.Next(d.sys, OrderRuns.Spawn(pid, p)),
                                  admitted := d.admitted + [Admission(o, ctx)]))
  {
    hide OrderRunsTheorems.Inv, MarketIn;
    var p := OrderRuns.Place(RequestOf(o, account));
    var t := d.(sys := OrderRuns.Next(d.sys, OrderRuns.Spawn(pid, p)), admitted := d.admitted + [Admission(o, ctx)]);
    OrderRunsTheorems.NextKeeps(d.sys, OrderRuns.Spawn(pid, p));
    AccountedGrows(d0, d, t);
    forall key | InFlight(t, key) ensures Accounted(d0, t, key) {
      var q :| q in t.sys.procs && Places(t.sys.procs[q], t.sys.rows, d.bucket, key);
      if q == pid {
        assert t.admitted[|d.admitted|].order.clientOrderId == key;
      } else {
        assert q in d.sys.procs && Places(d.sys.procs[q], d.sys.rows, d.bucket, key);
      }
    }
    forall i | |d0.sys.sent| <= i < |t.sys.sent| ensures SendAccounted(d0, t, t.sys.sent[i]) {
      assert SendAccounted(d0, d, d.sys.sent[i]);
    }
  }

  lemma SameAccounted(d0: Desk, d: Desk, t: Desk)
    requires SendsAccounted(d0, d) && t.sys == d.sys && t.bucket == d.bucket && t.admitted == d.admitted
    ensures SendsAccounted(d0, t)
  {
    hide OrderRunsTheorems.Inv, MarketIn;
    AccountedGrows(d0, d, t);
    forall key | InFlight(t, key) ensures InFlight(d, key) {
      var q :| q in t.sys.procs && Places(t.sys.procs[q], t.sys.rows, d.bucket, key);
      assert q in d.sys.procs && Places(d.sys.procs[q], d.sys.rows, d.bucket, key);
    }
    forall i | |d0.sys.sent| <= i < |t.sys.sent| ensures SendAccounted(d0, t, t.sys.sent[i]) {
      assert SendAccounted(d0, d, d.sys.sent[i]);
    }
  }

  lemma NextAccounted(d0: Desk, d: Desk, e: Event)
    requires SendsAccounted(d0, d)
    ensures SendsAccounted(d0, Next(d, e))
  {
    hide SendsAccounted, OrderRuns.Next, PreCheck, HasQuarantined, MarketIn;
    match e
    case Attempt(pid, env, o, ctx, account) =>
      if pid !in d.sys.procs { AttemptAccounted(d0, d, pid, o, ctx, account); }
    case Orders(oe) =>
      if !(oe.Spawn? && oe.p.Place? && MarketIn(oe.p.req.market, d.bucket)) { OrdersAccounted(d0, d, oe); }
    case _ => SameAccounted(d0, d, Next(d, e));
  }

  /** In every run, every order of the bucket sent since `d` was in flight at `d` or has been admitted since. */
  lemma {:induction false} RunAccounted(d: Desk, events: seq<Event>)
    requires OrderRunsTheorems.Inv(d.sys)
    ensures SendsAccounted(d, Run(d, events))
  {
    hide Next, SendsAccounted, OrderRunsTheorems.Inv;
    if events == [] {
      StartAccounted(d);
    } else {
      RunAccounted(d, events[..|events| - 1]);
      NextAccounted(d, Run(d, events[..|events| - 1]), events[|events| - 1]);
    }
  }

  lemma StartAccounted(d: Desk)
    requires OrderRunsTheorems.Inv(d.sys)
    ensures SendsAccounted(d, d)
  {
    hide OrderRunsTheorems.Inv, MarketIn;
  }

  /** The order under `key` was let through since the first `from` orders, and it reduces a position. */
  ghost predicate ExitAdmitted(d: Desk, from: nat, key: string) {
    exists j :: from <= j < |d.admitted| && d.admitted[j].order.clientOrderId == key
                && EffectiveExit(d.admitted[j].order, d.admitted[j].ctx)
  }

  /** Every order of the bucket sent since `d0` was in flight at `d0`, or reduces a position and was admitted since. */
  ghost predicate OnlyExitsSent(d0: Desk, t: Desk) {
    |d0.sys.sent| <= |t.sys.sent|
    && forall i :: |d0.sys.sent| <= i < |t.sys.sent| ==> ExitSent(d0, t, t.sys.sent[i])
  }

  ghost predicate ExitSent(d0: Desk, t: Desk, id: nat) {
    && id < |t.sys.rows|
    && (InBucket(t.sys.rows[id], t.bucket) ==>
          InFlight(d0, t.sys.rows[id].key) || ExitAdmitted(t, |d0.admitted|, t.sys.rows[id].key))
  }

  lemma ExitsAreSent(d0: Desk, t: Desk)
    requires SendsAccounted(d0, t) && OnlyExitsSince(t, |d0.admitted|)
    ensures OnlyExitsSent(d0, t)
  {
    hide OrderRunsTheorems.Inv, InFlight, EffectiveExit, MarketIn;
    forall i | |d0.sys.sent| <= i < |t.sys.sent| ensures ExitSent(d0, t, t.sys.sent[i]) {
      assert SendAccounted(d0, t, t.sys.sent[i]);
    }
  }

  // ----- quarantine -----

  lemma QuarantineStays(sys: OrderRuns.Sys, e: OrderRuns.Event, b: Bucket)
    requires HasQuarantined(sys.rows, b)
    ensures HasQuarantined(OrderRuns.Next(sys, e).rows, b)
  {
    OrderRunsHistory.NextExtends(sys, e);
    var i :| 0 <= i < |sys.rows| && sys.rows[i].status.Quarantined? && InBucket(sys.rows[i], b);
    var after := OrderRuns.Next(sys, e).rows;
    assert OrderRunsHistory.Later(sys.rows[i], after[i]);
    assert InBucket(after[i], b);
  }

  lemma LockedGate(env: Env, o: Intent, ctx: Context)
    requires HaltReason(env).Some? && PreCheck(env, o, ctx).Ok()
    ensures EffectiveExit(o, ctx)
  {
  }

  lemma QuarantineStep(d: Desk, e: Event, from: nat)
    requires HasQuarantined(d.sys.rows, d.bucket) && OnlyExitsSince(d, from)
    ensures var t := Next(d, e);
            t.bucket == d.bucket && HasQuarantined(t.sys.rows, t.bucket) && OnlyExitsSince(t, from)
  {
    hide HasQuarantined, OrderRuns.Next, PreCheck, EffectiveExit;
    match e
    case Attempt(pid, env, o, ctx, account) =>
      QuarantineStays(d.sys, OrderRuns.Spawn(pid, OrderRuns.Place(RequestOf(o, account))), d.bucket);
      if PreCheck(EnvOf(d, env), o, ctx).Ok() {
        LockedGate(EnvOf(d, env), o, ctx);
      }
    case Orders(oe) => QuarantineStays(d.sys, oe, d.bucket);
    case _ =>
  }

  lemma {:induction false} QuarantineAdmitsExits(d: Desk, events: seq<Event>)
    requires HasQuarantined(d.sys.rows, d.bucket)
    ensures var t := Run(d, events);
            t.bucket == d.bucket && HasQuarantined(t.sys.rows, t.bucket) && OnlyExitsSince(t, |d.admitted|)
  {
    hide HasQuarantined, Next;
    if events != [] {
      QuarantineAdmitsExits(d, events[..|events| - 1]);
      QuarantineStep(Run(d, events[..|events| - 1]), events[|events| - 1], |d.admitted|);
    }
  }

  /** Once any order of the bucket is quarantined, whatever happens afterwards, restarts included, no order of the
      bucket gets past the gate or, unless it was in flight already, to the broker that does not reduce a position. */
  lemma QuarantineLocksEntries(d: Desk, events: seq<Event>)
    requires OrderRunsTheorems.Inv(d.sys) && HasQuarantined(d.sys.rows, d.bucket)
    ensures var t := Run(d, events);
            && t.bucket == d.bucket && HasQuarantined(t.sys.rows, t.bucket)
            && OnlyExitsSince(t, |d.admitted|) && OnlyExitsSent(d, t)
  {
    hide HasQuarantined, Run, SendsAccounted, OnlyExitsSent, OrderRunsTheorems.Inv;
    QuarantineAdmitsExits(d, events);
    RunAccounted(d, events);
    ExitsAreSent(d, Run(d, events));
  }

  /** With nothing in flight when the order is quarantined, as at a boot, every order of the bucket sent later reduces
      a position and was admitted later. */
  lemma QuarantineStopsSends(d: Desk, events: seq<Event>, i: nat)
    requires OrderRunsTheorems.Inv(d.sys) && HasQuarantined(d.sys.rows, d.bucket) && d.sys.procs == map[]
    requires |d.sys.sent| <= i < |Run(d, events).sys.sent|
    ensures var t := Run(d, events);
            && t.sys.sent[i] < |t.sys.rows|
            && (InBucket(t.sys.rows[t.sys.sent[i]], d.bucket) ==>
                  ExitAdmitted(t, |d.admitted|, t.sys.rows[t.sys.sent[i]].key))
  {
    hide HasQuarantined, Run, OrderRunsTheorems.Inv, ExitAdmitted, MarketIn;
    QuarantineLocksEntries(d, events);
    var t := Run(d, events);
    assert ExitSent(d, t, t.sys.sent[i]);
  }

  // ----- the daily-loss latch -----

  ghost predicate LatchedOn(d: Desk, day: string) {
    d.risk.Some? && d.risk.value.halt.DailyHalt? && d.risk.value.day == Some(day)
  }

  ghost predicate NoNewDay(events: seq<Event>, day: string) {
    forall e <- events :: e.Evaluated? ==> e.t.today == day
  }

  lemma LatchStep(d: Desk, e: Event, from: nat, day: string)
    requires LatchedOn(d, day) && OnlyExitsSince(d, from)
    requires e.Evaluated? ==> e.t.today == day
    ensures var t := Next(d, e);
            && LatchedOn(t, day) && OnlyExitsSince(t, from)
            && t.halts == d.halts && t.risk.value.realized == d.risk.value.realized
            && t.risk.value.unrealized == d.risk.value.unrealized
  {
    hide HasQuarantined, OrderRuns.Next, PreCheck, EffectiveExit;
    match e
    case Attempt(pid, env, o, ctx, account) =>
      if PreCheck(EnvOf(d, env), o, ctx).Ok() {
        LockedGate(EnvOf(d, env), o, ctx);
      }
    case _ =>
  }

  lemma {:induction false} LatchAdmitsExits(d: Desk, events: seq<Event>, day: string)
    requires LatchedOn(d, day) && NoNewDay(events, day)
    ensures var t := Run(d, events);
            && LatchedOn(t, day) && OnlyExitsSince(t, |d.admitted|)
            && t.halts == d.halts && t.risk.value.realized == d.risk.value.realized
            && t.risk.value.unrealized == d.risk.value.unrealized
  {
    hide Next;
    if events != [] {
      var n := |events| - 1;
      assert events == events[..n] + [events[n]];
      LatchAdmitsExits(d, events[..n], day);
      LatchStep(Run(d, events[..n]), events[n], |d.admitted|, day);
    }
  }

  /** Once the daily loss is latched, and until a new trading day, no order of the bucket gets past the gate or,
      unless it was in flight at the latch, to the broker that does not reduce a position; the baseline does not move
      and no second halt event is emitted. */
  lemma DailyLossLocksEntries(d: Desk, events: seq<Event>, day: string)
    requires OrderRunsTheorems.Inv(d.sys) && LatchedOn(d, day) && NoNewDay(events, day)
    ensures var t := Run(d, events);
            && LatchedOn(t, day) && OnlyExitsSince(t, |d.admitted|) && OnlyExitsSent(d, t)
            && t.halts == d.halts && t.risk.value.realized == d.risk.value.realized
            && t.risk.value.unrealized == d.risk.value.unrealized
  {
    hide Run, SendsAccounted, OnlyExitsSent, OrderRunsTheorems.Inv, OnlyExitsSince;
    LatchAdmitsExits(d, events, day);
    RunAccounted(d, events);
    ExitsAreSent(d, Run(d, events));
  }
}
