/** The pre-trade gate: `RiskGate.pre_check` and `_reduce_only_ok` of server/app/risk/gate.py, with the conversions of
    server/app/portfolio/fx.py and server/app/risk/caps.py. */
module RiskGate {
  import opened Concentration
  import DailyLoss
  import opened Exposure
  import opened Reals
  import opened Wrappers

  datatype Market = KoreaStock | OverseasStock | OverseasFutures | Unlisted(name: string)

  datatype Bucket = Live | Paper

  function BucketOf(m: Market): Option<Bucket> {
    match m
    case KoreaStock => Some(Live)
    case OverseasStock => Some(Live)
    case OverseasFutures => Some(Paper)
    case Unlisted(_) => None
  }

  function MarketName(m: Market): string {
    match m
    case KoreaStock => "korea_stock"
    case OverseasStock => "overseas_stock"
    case OverseasFutures => "overseas_futureoption"
    case Unlisted(name) => name
  }

  datatype Side = Buy | Sell

  datatype Kind = EntryOrder | ExitOrder

  datatype OrderType = LimitOrder | MarketOrder

  datatype Intent = Intent(market: Market, symbol: string, side: Side, kind: Kind, orderType: OrderType, qty: nat,
                           price: Option<real>, exchange: string, currency: Option<string>, clientOrderId: string)

  datatype Direction = Long | Short

  datatype Position = Position(symbol: string, eval: real, market: Option<string>, currency: Option<string>,
                               direction: Option<Direction>, qty: real)

  /** The snapshot an order is judged against. */
  datatype Context = Context(multiplier: Option<real>, orderable: Option<real>, openOrders: nat,
                             positions: seq<Position>, committed: real)

  /** Exchange rates: the fixed ones, the observed ones still fresh, and the safety margin. */
  datatype Fx = Fx(fixed: map<string, real>, observed: map<string, real>, buffer: real) {
    function Rate(ccy: string): (real, bool) {
      if ccy == "KRW" then (1.0, false)
      else if ccy in observed then (observed[ccy], false)
      else if ccy in fixed then (fixed[ccy], true)
      else (1.0, true)
    }

    predicate Supports(ccy: string) {
      ccy == "KRW" || ccy in fixed
    }

    function Ceil(ccy: string): real {
      if ccy == "KRW" then 1.0 else Rate(ccy).0 * (1.0 + buffer)
    }

    function Floor(ccy: string): real {
      if ccy == "KRW" then 1.0 else Rate(ccy).0 * (1.0 - buffer)
    }
  }

  datatype Limits = Limits(maxContracts: int, maxOpenOrders: int, bucketNotionalCap: real, weights: WeightLimits,
                           maxPositions: int, perOrderCapKrw: real)

  /** Everything the gate reads besides the order and its context. `dailyCap` 0 means no daily cap. */
  datatype Env = Env(engineActive: bool, blocked: bool, risk: Option<DailyLoss.RiskState>, quarantined: bool,
                     whitelisted: bool, armed: bool, fx: Fx, limits: Limits, liveCap: real, dailyCap: real,
                     firstOrderGuard: bool)

  datatype Reason =
    | EngineNotActive | KillSwitch | HaltedDaily | QuarantinedOrders | FutNotHkex | LiveDisabled
    | MaxContracts | NoNotionalForLive | BucketNotionalCap | PerOrderCapLive | FxUnknownCcy | PerOrderCapKrw
    | DailyNotionalCap | WeightLimit(v: Violation) | MaxPositions | MaxOpenOrders | FirstOrderGuard
    | InsufficientOrderable | FxEstimated | OrderableUnknown

  datatype Verdict = Pass | Warn | Reject

  datatype Decision = Decision(verdict: Verdict, reasons: seq<Reason>, reclassified: bool) {
    predicate Ok() { !verdict.Reject? }
  }

  function Times(x: real, y: real): real { x * y }

  /** `notional_in_ccy`: a missing or zero multiplier counts as one. */
  function Notional(qty: nat, price: Option<real>, multiplier: Option<real>): Option<real> {
    if price.None? then None
    else
      var m := if multiplier.Some? && multiplier.value != 0.0 then multiplier.value else 1.0;
      Some(Times(qty as real, Times(price.value, m)))
  }

  function CurrencyOf(o: Intent): string {
    OrElse(o.currency, "USD")
  }

  /** The first position in `symbol`. */
  function Holding(positions: seq<Position>, symbol: string): Option<Position> {
    if positions == [] then None
    else if positions[0].symbol == symbol then Some(positions[0])
    else Holding(positions[1..], symbol)
  }

  predicate ReduceOnly(positions: seq<Position>, o: Intent) {
    var held := Holding(positions, o.symbol);
    && held.Some?
    && Abs(held.value.qty) > 0.0
    && o.qty as real <= Abs(held.value.qty)
    && ((held.value.direction == Some(Long) && o.side.Sell?) || (held.value.direction == Some(Short) && o.side.Buy?))
  }

  predicate EffectiveExit(o: Intent, ctx: Context) {
    o.kind.ExitOrder? && ReduceOnly(ctx.positions, o)
  }

  /** Step 1: what stops an order that is not an effective exit. */
  function HaltReason(env: Env): Option<Reason> {
    var daily := env.risk.Some? && env.risk.value.halt.DailyHalt?;
    if env.blocked then Some(if daily then HaltedDaily else KillSwitch)
    else if daily then Some(HaltedDaily)
    else if env.risk.Some? && env.risk.value.halt.Killed? then Some(KillSwitch)
    else if env.quarantined then Some(QuarantinedOrders)
    else None
  }

  /** Step 2: the market guard nobody bypasses. */
  function GuardReason(env: Env, o: Intent): Option<Reason> {
    if o.market.OverseasFutures? then
      if o.exchange != "HKEX" || !env.whitelisted then Some(FutNotHkex) else None
    else if BucketOf(o.market) == Some(Live) && env.armed then None
    else Some(LiveDisabled)
  }

  function When(b: bool, r: Reason): seq<Reason> {
    if b then [r] else []
  }

  predicate IsLive(o: Intent) {
    BucketOf(o.market) == Some(Live)
  }

  /** The converted part of step 4. */
  function KrwRejects(env: Env, o: Intent, n: real): seq<Reason> {
    var ccy := CurrencyOf(o);
    if !env.fx.Supports(ccy) then [FxUnknownCcy]
    else When(Times(n, env.fx.Ceil(ccy)) > env.limits.perOrderCapKrw, PerOrderCapKrw)
  }

  /** Steps 4 and 4'. */
  function NotionalRejects(env: Env, o: Intent, n: Option<real>): seq<Reason> {
    When(IsLive(o) && (n.None? || n.value <= 0.0), NoNotionalForLive)
    + if n.None? then []
      else
        When(n.value > env.limits.bucketNotionalCap, BucketNotionalCap)
        + When(IsLive(o) && n.value > env.liveCap, PerOrderCapLive)
        + KrwRejects(env, o, n.value)
  }

  function NotionalKrw(env: Env, o: Intent, n: Option<real>): Option<real> {
    if n.Some? && env.fx.Supports(CurrencyOf(o)) then Some(Times(n.value, env.fx.Ceil(CurrencyOf(o)))) else None
  }

  function Used(env: Env): real {
    if env.risk.Some? then env.risk.value.used else 0.0
  }

  /** Step 4''. */
  function DailyRejects(env: Env, o: Intent, krw: Option<real>): seq<Reason> {
    When(IsLive(o) && krw.Some? && env.dailyCap != 0.0 && Used(env) + krw.value > env.dailyCap, DailyNotionalCap)
  }

  function Book(positions: seq<Position>): seq<Item> {
    seq(|positions|, i requires 0 <= i < |positions| =>
      Item(positions[i].eval, positions[i].symbol, positions[i].market, positions[i].currency))
  }

  function WeightReasons(vs: seq<Violation>): seq<Reason> {
    if vs == [] then [] else [WeightLimit(vs[0])] + WeightReasons(vs[1..])
  }

  function Projected(env: Env, o: Intent, ctx: Context, n: real): Weighted {
    ProjectedWeights(Book(ctx.positions), Times(n, env.fx.Rate(CurrencyOf(o)).0), o.symbol, MarketName(o.market),
                     CurrencyOf(o), ctx.committed)
  }

  /** Step 5; an empty book is let through. */
  function WeightRejects(env: Env, o: Intent, ctx: Context, n: Option<real>): seq<Reason> {
    if ctx.positions == [] || n.None? then []
    else WeightReasons(ExposureViolations(Projected(env, o, ctx, n.value), env.limits.weights))
  }

  function HeldSymbols(positions: seq<Position>): set<string> {
    set p <- positions :: p.symbol
  }

  /** Steps 6 and 6'. */
  function CountRejects(env: Env, o: Intent, ctx: Context): seq<Reason> {
    var held := HeldSymbols(ctx.positions);
    When(o.symbol !in held && |held| >= env.limits.maxPositions, MaxPositions)
    + When(ctx.openOrders >= env.limits.maxOpenOrders, MaxOpenOrders)
    + When(IsLive(o) && env.firstOrderGuard && held - {o.symbol} != {}, FirstOrderGuard)
  }

  /** Step 7. */
  function OrderableRejects(env: Env, o: Intent, ctx: Context, n: Option<real>, krw: Option<real>): seq<Reason> {
    if ctx.orderable.None? || n.None? then []
    else if env.fx.Supports(CurrencyOf(o)) then
      When(krw.GetOr(n.value) > Times(ctx.orderable.value, env.fx.Floor(CurrencyOf(o))), InsufficientOrderable)
    else When(n.value > ctx.orderable.value, InsufficientOrderable)
  }

  function Rejects(env: Env, o: Intent, ctx: Context): seq<Reason> {
    var n := Notional(o.qty, o.price, ctx.multiplier);
    var krw := NotionalKrw(env, o, n);
    When(o.qty > env.limits.maxContracts, MaxContracts)
    + NotionalRejects(env, o, n) + DailyRejects(env, o, krw) + WeightRejects(env, o, ctx, n)
    + CountRejects(env, o, ctx) + OrderableRejects(env, o, ctx, n, krw)
  }

  function Warns(env: Env, o: Intent, ctx: Context): seq<Reason> {
    var ccy := CurrencyOf(o);
    When(Notional(o.qty, o.price, ctx.multiplier).Some? && env.fx.Supports(ccy) && env.fx.Rate(ccy).1, FxEstimated)
    + When(ctx.orderable.None?, OrderableUnknown)
  }

  /** The decision about an order. */
  function PreCheck(env: Env, o: Intent, ctx: Context): Decision {
    var exit := EffectiveExit(o, ctx);
    var reclassified := o.kind.ExitOrder? && !exit;
    if !env.engineActive then Decision(Reject, [EngineNotActive], false)
    else if !exit && HaltReason(env).Some? then Decision(Reject, [HaltReason(env).value], reclassified)
    else if GuardReason(env, o).Some? then Decision(Reject, [GuardReason(env, o).value], reclassified)
    else if exit then Decision(Pass, [], false)
    else
      var rejects, warns := Rejects(env, o, ctx), Warns(env, o, ctx);
      if rejects != [] then Decision(Reject, rejects + warns, reclassified)
      else if warns != [] then Decision(Warn, warns, reclassified)
      else Decision(Pass, [], reclassified)
  }

  // ----- the gate as it runs -----

  class Gate {
    /** One audit row per decision, one risk event per decision that is not a plain pass. */
    var audit: seq<Decision>
    var events: seq<Decision>

    constructor ()
      ensures audit == [] && events == []
    {
      audit, events := [], [];
    }

    method Finalize(d: Decision)
      modifies this
      ensures audit == old(audit) + [d]
      ensures events == old(events) + if d.verdict.Pass? then [] else [d]
    {
      audit := audit + [d];
      if !d.verdict.Pass? {
        events := events + [d];
      }
    }

    method FindHolding(positions: seq<Position>, symbol: string) returns (held: Option<Position>)
      ensures held == Holding(positions, symbol)
    {
      var i := 0;
      while i < |positions|
        invariant 0 <= i <= |positions|
        invariant Holding(positions, symbol) == Holding(positions[i..], symbol)
      {
        if positions[i].symbol == symbol {
          return Some(positions[i]);
        }
        i := i + 1;
      }
      return None;
    }

    method ReduceOnlyOk(positions: seq<Position>, o: Intent) returns (ok: bool)
      ensures ok == ReduceOnly(positions, o)
    {
      var held := FindHolding(positions, o.symbol);
      if held.None? {
        return false;
      }
      var qty := Abs(held.value.qty);
      if qty <= 0.0 {
        return false;
      }
      if held.value.direction == Some(Long) && o.side.Sell? && o.qty as real <= qty {
        return true;
      }
      if held.value.direction == Some(Short) && o.side.Buy? && o.qty as real <= qty {
        return true;
      }
      return false;
    }

    /** The converted part of step 4. */
    method CheckKrw(env: Env, o: Intent, n: real) returns (rejects: seq<Reason>, warns: seq<Reason>, krw: Option<real>)
      ensures rejects == KrwRejects(env, o, n) && krw == NotionalKrw(env, o, Some(n))
      ensures warns == When(env.fx.Supports(CurrencyOf(o)) && env.fx.Rate(CurrencyOf(o)).1, FxEstimated)
    {
      hide Times, CurrencyOf, Fx.Rate, Fx.Ceil, Fx.Supports;
      var ccy := CurrencyOf(o);
      rejects, warns, krw := [], [], None;
      if !env.fx.Supports(ccy) {
        rejects := [FxUnknownCcy];
      } else {
        krw := Some(Times(n, env.fx.Ceil(ccy)));
        if krw.value > env.limits.perOrderCapKrw {
          rejects := [PerOrderCapKrw];
        }
        if env.fx.Rate(ccy).1 {
          warns := [FxEstimated];
        }
      }
    }

    /** Steps 4 and 4'. */
    method CheckNotional(env: Env, o: Intent, n: Option<real>, sofar: seq<Reason>)
      returns (rejects: seq<Reason>, warns: seq<Reason>, krw: Option<real>)
      ensures rejects == sofar + NotionalRejects(env, o, n) && krw == NotionalKrw(env, o, n)
      ensures warns == When(n.Some? && env.fx.Supports(CurrencyOf(o)) && env.fx.Rate(CurrencyOf(o)).1, FxEstimated)
    {
      hide Times, CurrencyOf, Fx.Rate, Fx.Ceil, Fx.Supports, IsLive, KrwRejects;
      rejects, warns, krw := sofar, [], None;
      if IsLive(o) && (n.None? || n.value <= 0.0) {
        rejects := rejects + [NoNotionalForLive];
      }
      if n.Some? {
        if n.value > env.limits.bucketNotionalCap {
          rejects := rejects + [BucketNotionalCap];
        }
        if IsLive(o) && n.value > env.liveCap {
          rejects := rejects + [PerOrderCapLive];
        }
        var converted;
        converted, warns, krw := CheckKrw(env, o, n.value);
        rejects := rejects + converted;
      }
    }

    /** Steps 6 and 6'. */
    method CheckCounts(env: Env, o: Intent, ctx: Context, sofar: seq<Reason>) returns (rejects: seq<Reason>)
      ensures rejects == sofar + CountRejects(env, o, ctx)
    {
      rejects := sofar;
      var held := HeldSymbols(ctx.positions);
      if o.symbol !in held && |held| >= env.limits.maxPositions {
        rejects := rejects + [MaxPositions];
      }
      if ctx.openOrders >= env.limits.maxOpenOrders {
        rejects := rejects + [MaxOpenOrders];
      }
      if IsLive(o) && env.firstOrderGuard {
        if held - {o.symbol} != {} {
          rejects := rejects + [FirstOrderGuard];
        }
      }
    }

    /** Step 7. */
    method CheckOrderable(env: Env, o: Intent, ctx: Context, n: Option<real>, krw: Option<real>, sofar: seq<Reason>)
      returns (rejects: seq<Reason>, warns: seq<Reason>)
      ensures rejects == sofar + OrderableRejects(env, o, ctx, n, krw)
      ensures warns == When(ctx.orderable.None?, OrderableUnknown)
    {
      hide Times, CurrencyOf, Fx.Floor, Fx.Supports;
      rejects, warns := sofar, [];
      if ctx.orderable.Some? && n.Some? {
        if env.fx.Supports(CurrencyOf(o)) {
          var headroom := Times(ctx.orderable.value, env.fx.Floor(CurrencyOf(o)));
          if krw.GetOr(n.value) > headroom {
            rejects := rejects + [InsufficientOrderable];
          }
        } else if n.value > ctx.orderable.value {
          rejects := rejects + [InsufficientOrderable];
        }
      } else if ctx.orderable.None? {
        warns := warns + [OrderableUnknown];
      }
    }

    /** Steps 3 to 7: the reasons accumulate in order. */
    method CheckLimits(env: Env, o: Intent, ctx: Context) returns (rejects: seq<Reason>, warns: seq<Reason>)
      ensures rejects == Rejects(env, o, ctx) && warns == Warns(env, o, ctx)
    {
      hide NotionalRejects, NotionalKrw, WeightRejects, CountRejects, OrderableRejects, Notional, CurrencyOf;
      rejects := [];
      if o.qty > env.limits.maxContracts {
        rejects := rejects + [MaxContracts];
      }
      var n := Notional(o.qty, o.price, ctx.multiplier);
      var krw, w1, w2;
      rejects, w1, krw := CheckNotional(env, o, n, rejects);
      if IsLive(o) && krw.Some? && env.dailyCap != 0.0 {
        if Used(env) + krw.value > env.dailyCap {
          rejects := rejects + [DailyNotionalCap];
        }
      }
      rejects := rejects + WeightRejects(env, o, ctx, n);
      rejects := CheckCounts(env, o, ctx, rejects);
      rejects, w2 := CheckOrderable(env, o, ctx, n, krw, rejects);
      warns := w1 + w2;
    }

    method Check(env: Env, o: Intent, ctx: Context) returns (d: Decision)
      modifies this
      ensures d == PreCheck(env, o, ctx)
      ensures audit == old(audit) + [d]
      ensures events == old(events) + if d.verdict.Pass? then [] else [d]
    {
      hide Rejects, Warns;
      if !env.engineActive {
        d := Decision(Reject, [EngineNotActive], false);
        Finalize(d);
        return;
      }
      var exit, reclassified := false, false;
      if o.kind.ExitOrder? {
        exit := ReduceOnlyOk(ctx.positions, o);
        reclassified := !exit;
      }
      if !exit {
        var daily := env.risk.Some? && env.risk.value.halt.DailyHalt?;
        var reason: Option<Reason> := None;
        if env.blocked {
          reason := Some(if daily then HaltedDaily else KillSwitch);
        } else if daily {
          reason := Some(HaltedDaily);
        } else if env.risk.Some? && env.risk.value.halt.Killed? {
          reason := Some(KillSwitch);
        } else if env.quarantined {
          reason := Some(QuarantinedOrders);
        }
        if reason.Some? {
          d := Decision(Reject, [reason.value], reclassified);
          Finalize(d);
          return;
        }
      }
      var guard := GuardReason(env, o);
      if guard.Some? {
        d := Decision(Reject, [guard.value], reclassified);
        Finalize(d);
        return;
      }
      if exit {
        d := Decision(Pass, [], false);
        Finalize(d);
        return;
      }
      var rejects, warns := CheckLimits(env, o, ctx);
      if rejects != [] {
        d := Decision(Reject, rejects + warns, reclassified);
      } else if warns != [] {
        d := Decision(Warn, warns, reclassified);
      } else {
        d := Decision(Pass, [], reclassified);
      }
      Finalize(d);
    }
  }
}
