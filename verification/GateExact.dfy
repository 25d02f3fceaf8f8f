/** The gate's decision in numbers: which limits an order breaks, and what is decided about it for which reasons. */
module GateExact {
  import opened Concentration
  import DailyLoss
  import opened Exposure
  import opened Reals
  import opened RiskGate
  import opened Wrappers

  // ----- the order in numbers -----

  function Currency(o: Intent): string {
    if o.currency.Some? && o.currency.value != "" then o.currency.value else "USD"
  }

  predicate Live(o: Intent) {
    o.market.KoreaStock? || o.market.OverseasStock?
  }

  /** Quantity times price times multiplier, which counts as one when missing or zero. */
  function Size(o: Intent, ctx: Context): real
    requires o.price.Some?
  {
    var m := if ctx.multiplier.Some? && ctx.multiplier.value != 0.0 then ctx.multiplier.value else 1.0;
    o.qty as real * (o.price.value * m)
  }

  /** An observed rate goes before a fixed one. */
  function MarketRate(fx: Fx, ccy: string): real {
    if ccy == "KRW" then 1.0
    else if ccy in fx.observed then fx.observed[ccy]
    else if ccy in fx.fixed then fx.fixed[ccy]
    else 1.0
  }

  predicate Convertible(fx: Fx, ccy: string) {
    ccy == "KRW" || ccy in fx.fixed
  }

  /** The size in won, at a rate raised by the margin. */
  function Krw(env: Env, o: Intent, ctx: Context): real
    requires o.price.Some?
  {
    var ccy := Currency(o);
    Size(o, ctx) * (if ccy == "KRW" then 1.0 else MarketRate(env.fx, ccy) * (1.0 + env.fx.buffer))
  }

  /** The balance in won, at a rate lowered by the margin. */
  function Balance(env: Env, o: Intent, ctx: Context): real
    requires ctx.orderable.Some?
  {
    var ccy := Currency(o);
    ctx.orderable.value * (if ccy == "KRW" then 1.0 else MarketRate(env.fx, ccy) * (1.0 - env.fx.buffer))
  }

  /** The size in won at the market's rate. */
  function AtMarket(env: Env, o: Intent, ctx: Context): real
    requires o.price.Some?
  {
    Size(o, ctx) * MarketRate(env.fx, Currency(o))
  }

  function Items(positions: seq<Position>): seq<Item> {
    seq(|positions|, i requires 0 <= i < |positions| =>
      Item(positions[i].eval, positions[i].symbol, positions[i].market, positions[i].currency))
  }

  /** The weights the order leads to, at the market's rate. */
  function After(env: Env, o: Intent, ctx: Context): Weighted
    requires o.price.Some?
  {
    ProjectedWeights(Items(ctx.positions), AtMarket(env, o, ctx), o.symbol, MarketName(o.market), Currency(o),
                     ctx.committed)
  }

  /** The first position in the symbol is on the other side and not smaller than the order. */
  ghost predicate Reduces(positions: seq<Position>, o: Intent) {
    exists i :: 0 <= i < |positions| && ReducesAt(positions, o, i)
  }

  ghost predicate ReducesAt(positions: seq<Position>, o: Intent, i: nat)
    requires i < |positions|
  {
    var p := positions[i];
    && p.symbol == o.symbol && (forall j :: 0 <= j < i ==> positions[j].symbol != o.symbol)
    && p.direction == Some(if o.side.Sell? then Long else Short)
    && Abs(p.qty) > 0.0 && o.qty as real <= Abs(p.qty)
  }

  lemma {:induction false} ReducesIff(positions: seq<Position>, o: Intent)
    ensures ReduceOnly(positions, o) <==> Reduces(positions, o)
  {
    if positions != [] {
      var rest := positions[1..];
      if positions[0].symbol == o.symbol {
        assert ReduceOnly(positions, o) <==> ReducesAt(positions, o, 0);
      } else {
        ReducesIff(rest, o);
        forall i | 0 <= i < |rest| ensures ReducesAt(rest, o, i) <==> ReducesAt(positions, o, i + 1) {
          LaterPosition(positions, o, i);
        }
        if Reduces(positions, o) {
          var i :| 0 <= i < |positions| && ReducesAt(positions, o, i);
          assert i > 0 && ReducesAt(rest, o, i - 1);
        }
      }
    }
  }

  lemma LaterPosition(positions: seq<Position>, o: Intent, i: nat)
    requires i < |positions| - 1 && positions[0].symbol != o.symbol
    ensures ReducesAt(positions[1..], o, i) <==> ReducesAt(positions, o, i + 1)
  {
    var rest := positions[1..];
    assert forall j :: 0 < j < |positions| ==> positions[j] == rest[j - 1];
    assert forall j :: 0 <= j < |rest| ==> rest[j] == positions[j + 1];
  }

  /** A reducing order moves the position towards zero and never past it. */
  lemma ReducingIsSafe(positions: seq<Position>, o: Intent, i: nat)
    requires i < |positions| && ReducesAt(positions, o, i)
    ensures var p := positions[i];
            var held := if p.direction == Some(Long) then Abs(p.qty) else -Abs(p.qty);
            var left := held + if o.side.Buy? then o.qty as real else -(o.qty as real);
            && held != 0.0 && Abs(left) == Abs(held) - o.qty as real
            && (left == 0.0 || (left > 0.0) == (held > 0.0))
  {
  }

  // ----- the limits -----

  function Symbols(ctx: Context): set<string> {
    set p | p in ctx.positions :: p.symbol
  }

  /** What each reason stands for. */
  ghost predicate Broken(r: Reason, env: Env, o: Intent, ctx: Context) {
    match r
    case MaxContracts => o.qty > env.limits.maxContracts
    case NoNotionalForLive => Live(o) && (o.price.None? || Size(o, ctx) <= 0.0)
    case BucketNotionalCap => o.price.Some? && Size(o, ctx) > env.limits.bucketNotionalCap
    case PerOrderCapLive => Live(o) && o.price.Some? && Size(o, ctx) > env.liveCap
    case FxUnknownCcy => o.price.Some? && !Convertible(env.fx, Currency(o))
    case PerOrderCapKrw =>
      o.price.Some? && Convertible(env.fx, Currency(o)) && Krw(env, o, ctx) > env.limits.perOrderCapKrw
    case DailyNotionalCap =>
      Live(o) && o.price.Some? && Convertible(env.fx, Currency(o)) && env.dailyCap != 0.0
      && (if env.risk.Some? then env.risk.value.used else 0.0) + Krw(env, o, ctx) > env.dailyCap
    case WeightLimit(v) =>
      ctx.positions != [] && o.price.Some?
      && (if v.MaxSymbolWeight? then After(env, o, ctx).symbol > env.limits.weights.symbol
          else if v.MaxMarketWeight? then After(env, o, ctx).market > env.limits.weights.market
          else After(env, o, ctx).currency > env.limits.weights.currency)
    case MaxPositions => o.symbol !in Symbols(ctx) && |Symbols(ctx)| >= env.limits.maxPositions
    case MaxOpenOrders => ctx.openOrders >= env.limits.maxOpenOrders
    case FirstOrderGuard => Live(o) && env.firstOrderGuard && exists s :: s in Symbols(ctx) && s != o.symbol
    case InsufficientOrderable =>
      ctx.orderable.Some? && o.price.Some?
      && if Convertible(env.fx, Currency(o)) then Krw(env, o, ctx) > Balance(env, o, ctx)
         else Size(o, ctx) > ctx.orderable.value
    case _ => false
  }

  /** What the gate lets through but says so. */
  ghost predicate Noted(r: Reason, env: Env, o: Intent, ctx: Context) {
    match r
    case FxEstimated =>
      var ccy := Currency(o); o.price.Some? && ccy != "KRW" && ccy in env.fx.fixed && ccy !in env.fx.observed
    case OrderableUnknown => ctx.orderable.None?
    case _ => false
  }

  function Place(r: Reason): nat {
    match r
    case MaxContracts => 0
    case NoNotionalForLive => 1
    case BucketNotionalCap => 2
    case PerOrderCapLive => 3
    case FxUnknownCcy => 4
    case PerOrderCapKrw => 5
    case DailyNotionalCap => 6
    case WeightLimit(v) => if v.MaxSymbolWeight? then 7 else if v.MaxMarketWeight? then 8 else 9
    case MaxPositions => 10
    case MaxOpenOrders => 11
    case FirstOrderGuard => 12
    case InsufficientOrderable => 13
    case FxEstimated => 14
    case OrderableUnknown => 15
    case _ => 16
  }

  /** Reasons from places `lo` to `hi`, each at most once and in the order of their places. */
  ghost predicate Ordered(rs: seq<Reason>, lo: nat, hi: nat) {
    && (forall i :: 0 <= i < |rs| ==> lo <= Place(rs[i]) < hi)
    && (forall i, j :: 0 <= i < j < |rs| ==> Place(rs[i]) < Place(rs[j]))
  }

  lemma OrderedJoin(xs: seq<Reason>, ys: seq<Reason>, lo: nat, mid: nat, hi: nat)
    requires Ordered(xs, lo, mid) && Ordered(ys, mid, hi) && lo <= mid <= hi
    ensures Ordered(xs + ys, lo, hi)
  {
    hide Place;
  }

  lemma InJoin(xs: seq<Reason>, ys: seq<Reason>)
    ensures forall r :: r in xs + ys <==> r in xs || r in ys
  {
  }

  /** `rs` holds exactly the broken limits at places `lo` to `hi`, in order. */
  ghost predicate Lists(rs: seq<Reason>, env: Env, o: Intent, ctx: Context, lo: nat, hi: nat) {
    && Ordered(rs, lo, hi)
    && forall r :: r in rs <==> lo <= Place(r) < hi && Broken(r, env, o, ctx)
  }

  lemma ListsJoin(xs: seq<Reason>, ys: seq<Reason>, env: Env, o: Intent, ctx: Context, lo: nat, mid: nat, hi: nat)
    requires Lists(xs, env, o, ctx, lo, mid) && Lists(ys, env, o, ctx, mid, hi) && lo <= mid <= hi
    ensures Lists(xs + ys, env, o, ctx, lo, hi)
  {
    hide Broken, Place, Ordered;
    OrderedJoin(xs, ys, lo, mid, hi);
    InJoin(xs, ys);
  }

  lemma ListsOne(r: Reason, b: bool, env: Env, o: Intent, ctx: Context, at: nat)
    requires Place(r) == at < 16 && (b <==> Broken(r, env, o, ctx))
    ensures Lists(When(b, r), env, o, ctx, at, at + 1)
  {
    hide Broken;
    SamePlace(r);
  }

  lemma SamePlace(r: Reason)
    ensures forall s: Reason :: Place(s) == Place(r) < 16 ==> s == r
  {
  }

  lemma NothingBroken(env: Env, o: Intent, ctx: Context, lo: nat, hi: nat)
    requires forall r: Reason :: lo <= Place(r) < hi ==> !Broken(r, env, o, ctx)
    ensures Lists([], env, o, ctx, lo, hi)
  {
    hide Broken, Place;
  }

  // ----- the pieces of the scan -----

  lemma Conversions(env: Env, o: Intent, ctx: Context)
    ensures CurrencyOf(o) == Currency(o) && (IsLive(o) <==> Live(o))
    ensures env.fx.Rate(Currency(o)).0 == MarketRate(env.fx, Currency(o))
    ensures env.fx.Supports(Currency(o)) <==> Convertible(env.fx, Currency(o))
    ensures Notional(o.qty, o.price, ctx.multiplier) == if o.price.Some? then Some(Size(o, ctx)) else None
    ensures o.price.Some? ==> Times(Size(o, ctx), env.fx.Ceil(Currency(o))) == Krw(env, o, ctx)
    ensures ctx.orderable.Some? ==> Times(ctx.orderable.value, env.fx.Floor(Currency(o))) == Balance(env, o, ctx)
  {
    if o.price.Some? {
      SizeIs(o, ctx);
    }
    hide Size, Notional;
  }

  lemma SizeIs(o: Intent, ctx: Context)
    requires o.price.Some?
    ensures Notional(o.qty, o.price, ctx.multiplier) == Some(Size(o, ctx))
  {
    var m := if ctx.multiplier.Some? && ctx.multiplier.value != 0.0 then ctx.multiplier.value else 1.0;
    var each := o.price.value * m;
    assert Times(o.price.value, m) == each && Times(o.qty as real, each) == o.qty as real * each;
    assert Size(o, ctx) == o.qty as real * each;
    assert Notional(o.qty, o.price, ctx.multiplier) == Some(Times(o.qty as real, Times(o.price.value, m)));
  }

  lemma NotionalLists(env: Env, o: Intent, ctx: Context)
    ensures Lists(NotionalRejects(env, o, Notional(o.qty, o.price, ctx.multiplier)), env, o, ctx, 1, 6)
  {
    hide Lists, Size, Krw, MarketRate, Times, Notional, Place, Fx.Ceil, Fx.Rate, CurrencyOf, Currency, IsLive, Live;
    Conversions(env, o, ctx);
    var none := When(Live(o) && (o.price.None? || Size(o, ctx) <= 0.0), NoNotionalForLive);
    PlacesAre();
    ListsOne(NoNotionalForLive, Live(o) && (o.price.None? || Size(o, ctx) <= 0.0), env, o, ctx, 1);
    if o.price.None? {
      NoPriceNothingBroken(env, o, ctx);
      ListsJoin(none, [], env, o, ctx, 1, 2, 6);
    } else {
      var n := Size(o, ctx);
      ListsOne(BucketNotionalCap, n > env.limits.bucketNotionalCap, env, o, ctx, 2);
      ListsOne(PerOrderCapLive, Live(o) && n > env.liveCap, env, o, ctx, 3);
      var cap := When(n > env.limits.bucketNotionalCap, BucketNotionalCap);
      var live := When(Live(o) && n > env.liveCap, PerOrderCapLive);
      KrwLists(env, o, ctx);
      var krw := KrwRejects(env, o, n);
      ListsJoin(cap, live, env, o, ctx, 2, 3, 4);
      ListsJoin(cap + live, krw, env, o, ctx, 2, 4, 6);
      ListsJoin(none, cap + live + krw, env, o, ctx, 1, 2, 6);
    }
  }

  lemma PlacesAre()
    ensures Place(NoNotionalForLive) == 1 && Place(BucketNotionalCap) == 2 && Place(PerOrderCapLive) == 3
    ensures Place(FxUnknownCcy) == 4 && Place(PerOrderCapKrw) == 5
  {
  }

  lemma NoPriceNothingBroken(env: Env, o: Intent, ctx: Context)
    requires o.price.None?
    ensures Lists([], env, o, ctx, 2, 6) && Lists([], env, o, ctx, 6, 10) && Lists([], env, o, ctx, 13, 14)
  {
  }

  lemma KrwLists(env: Env, o: Intent, ctx: Context)
    requires o.price.Some?
    ensures Lists(KrwRejects(env, o, Size(o, ctx)), env, o, ctx, 4, 6)
  {
    hide Lists, Size, Krw, MarketRate, Times, Notional, Place, Fx.Ceil, Fx.Rate, CurrencyOf, Currency;
    Conversions(env, o, ctx);
    PlacesAre();
    var known := Convertible(env.fx, Currency(o));
    var over := known && Krw(env, o, ctx) > env.limits.perOrderCapKrw;
    ListsOne(FxUnknownCcy, !known, env, o, ctx, 4);
    ListsOne(PerOrderCapKrw, over, env, o, ctx, 5);
    ListsJoin(When(!known, FxUnknownCcy), When(over, PerOrderCapKrw), env, o, ctx, 4, 5, 6);
    assert KrwRejects(env, o, Size(o, ctx)) == When(!known, FxUnknownCcy) + When(over, PerOrderCapKrw);
  }

  lemma DailyLists(env: Env, o: Intent, ctx: Context)
    ensures var n := Notional(o.qty, o.price, ctx.multiplier);
            Lists(DailyRejects(env, o, NotionalKrw(env, o, n)), env, o, ctx, 6, 7)
  {
    hide Lists, Size, Krw, MarketRate, Times, Notional, Place, Fx.Ceil, Fx.Rate, CurrencyOf, Currency, IsLive, Live;
    Conversions(env, o, ctx);
    LastPlaces();
    var over := Live(o) && o.price.Some? && Convertible(env.fx, Currency(o)) && env.dailyCap != 0.0
                && Used(env) + Krw(env, o, ctx) > env.dailyCap;
    ListsOne(DailyNotionalCap, over, env, o, ctx, 6);
  }

  lemma LastPlaces()
    ensures Place(DailyNotionalCap) == 6 && Place(WeightLimit(MaxSymbolWeight)) == 7
    ensures Place(WeightLimit(MaxMarketWeight)) == 8 && Place(WeightLimit(MaxCurrencyWeight)) == 9
    ensures Place(MaxPositions) == 10 && Place(MaxOpenOrders) == 11 && Place(FirstOrderGuard) == 12
    ensures Place(InsufficientOrderable) == 13
  {
  }

  lemma ReasonsOf(w: Weighted, lim: WeightLimits)
    ensures WeightReasons(ExposureViolations(w, lim))
         == When(w.symbol > lim.symbol, WeightLimit(MaxSymbolWeight))
            + When(w.market > lim.market, WeightLimit(MaxMarketWeight))
            + When(w.currency > lim.currency, WeightLimit(MaxCurrencyWeight))
  {
    ReasonsJoin(if w.symbol > lim.symbol then [MaxSymbolWeight] else [],
                if w.market > lim.market then [MaxMarketWeight] else []);
    ReasonsJoin((if w.symbol > lim.symbol then [MaxSymbolWeight] else [])
                + (if w.market > lim.market then [MaxMarketWeight] else []),
                if w.currency > lim.currency then [MaxCurrencyWeight] else []);
    OneReason(MaxSymbolWeight);
    OneReason(MaxMarketWeight);
    OneReason(MaxCurrencyWeight);
  }

  lemma OneReason(v: Violation)
    ensures WeightReasons([v]) == [WeightLimit(v)] && WeightReasons([]) == []
  {
    assert [v][1..] == [];
  }

  lemma {:induction false} ReasonsJoin(xs: seq<Violation>, ys: seq<Violation>)
    ensures WeightReasons(xs + ys) == WeightReasons(xs) + WeightReasons(ys)
  {
    if xs == [] {
      assert xs + ys == ys;
    } else {
      assert (xs + ys)[1..] == xs[1..] + ys && (xs + ys)[0] == xs[0];
      ReasonsJoin(xs[1..], ys);
    }
  }

  lemma AtMarketIs(env: Env, o: Intent, ctx: Context)
    requires o.price.Some?
    ensures Times(Size(o, ctx), env.fx.Rate(CurrencyOf(o)).0) == AtMarket(env, o, ctx)
  {
    hide Size, MarketRate, Fx.Rate, CurrencyOf, Currency, Notional;
    Conversions(env, o, ctx);
    var rate := MarketRate(env.fx, Currency(o));
    assert Times(Size(o, ctx), rate) == Size(o, ctx) * rate;
  }

  lemma AfterIs(env: Env, o: Intent, ctx: Context)
    requires o.price.Some?
    ensures Projected(env, o, ctx, Size(o, ctx)) == After(env, o, ctx)
  {
    hide Size, AtMarket, Times, Fx.Rate, CurrencyOf, Currency, ProjectedWeights, Notional;
    Conversions(env, o, ctx);
    AtMarketIs(env, o, ctx);
    assert Book(ctx.positions) == Items(ctx.positions);
  }

  lemma WeightLists(env: Env, o: Intent, ctx: Context)
    ensures Lists(WeightRejects(env, o, ctx, Notional(o.qty, o.price, ctx.multiplier)), env, o, ctx, 7, 10)
  {
    hide Lists, Size, Krw, MarketRate, Times, Notional, Place, Fx.Ceil, Fx.Rate, CurrencyOf, Currency, After, Projected,
         ExposureViolations, WeightReasons;
    Conversions(env, o, ctx);
    LastPlaces();
    if ctx.positions == [] || o.price.None? {
      NoWeights(env, o, ctx);
    } else {
      AfterIs(env, o, ctx);
      var w, lim := After(env, o, ctx), env.limits.weights;
      ReasonsOf(w, lim);
      ListsOne(WeightLimit(MaxSymbolWeight), w.symbol > lim.symbol, env, o, ctx, 7);
      ListsOne(WeightLimit(MaxMarketWeight), w.market > lim.market, env, o, ctx, 8);
      ListsOne(WeightLimit(MaxCurrencyWeight), w.currency > lim.currency, env, o, ctx, 9);
      var a := When(w.symbol > lim.symbol, WeightLimit(MaxSymbolWeight));
      var b := When(w.market > lim.market, WeightLimit(MaxMarketWeight));
      var c := When(w.currency > lim.currency, WeightLimit(MaxCurrencyWeight));
      ListsJoin(a, b, env, o, ctx, 7, 8, 9);
      ListsJoin(a + b, c, env, o, ctx, 7, 9, 10);
    }
  }

  lemma NoWeights(env: Env, o: Intent, ctx: Context)
    requires ctx.positions == [] || o.price.None?
    ensures Lists([], env, o, ctx, 7, 10)
  {
    hide After;
  }

  lemma CountLists(env: Env, o: Intent, ctx: Context)
    ensures Lists(CountRejects(env, o, ctx), env, o, ctx, 10, 13)
  {
    hide Lists, Place, IsLive, Live, Broken;
    Conversions(env, o, ctx);
    var held := Symbols(ctx);
    SymbolsAre(ctx);
    var full := o.symbol !in held && |held| >= env.limits.maxPositions;
    var many := ctx.openOrders >= env.limits.maxOpenOrders;
    var guard := Live(o) && env.firstOrderGuard && held - {o.symbol} != {};
    CountsBroken(env, o, ctx);
    LastPlaces();
    ListsOne(MaxPositions, full, env, o, ctx, 10);
    ListsOne(MaxOpenOrders, many, env, o, ctx, 11);
    ListsOne(FirstOrderGuard, guard, env, o, ctx, 12);
    var a, b, c := When(full, MaxPositions), When(many, MaxOpenOrders), When(guard, FirstOrderGuard);
    ListsJoin(a, b, env, o, ctx, 10, 11, 12);
    ListsJoin(a + b, c, env, o, ctx, 10, 12, 13);
    assert CountRejects(env, o, ctx) == a + b + c;
  }

  lemma SymbolsAre(ctx: Context)
    ensures HeldSymbols(ctx.positions) == Symbols(ctx)
  {
  }

  lemma CountsBroken(env: Env, o: Intent, ctx: Context)
    ensures Broken(MaxPositions, env, o, ctx)
       <==> o.symbol !in Symbols(ctx) && |Symbols(ctx)| >= env.limits.maxPositions
    ensures Broken(MaxOpenOrders, env, o, ctx) <==> ctx.openOrders >= env.limits.maxOpenOrders
    ensures Broken(FirstOrderGuard, env, o, ctx)
       <==> Live(o) && env.firstOrderGuard && Symbols(ctx) - {o.symbol} != {}
  {
    hide Live, Symbols;
    OtherHeld(Symbols(ctx), o.symbol);
  }

  lemma OtherHeld(held: set<string>, symbol: string)
    ensures held - {symbol} != {} <==> exists s :: s in held && s != symbol
  {
    if s :| s in held && s != symbol {
      assert s in held - {symbol};
    }
  }

  lemma OrderableLists(env: Env, o: Intent, ctx: Context)
    ensures var n := Notional(o.qty, o.price, ctx.multiplier);
            Lists(OrderableRejects(env, o, ctx, n, NotionalKrw(env, o, n)), env, o, ctx, 13, 14)
  {
    hide Lists, Size, Krw, Balance, MarketRate, Times, Notional, Place, Fx.Ceil, Fx.Floor, Fx.Rate, CurrencyOf,
         Currency;
    Conversions(env, o, ctx);
    LastPlaces();
    var short := ctx.orderable.Some? && o.price.Some?
                 && if Convertible(env.fx, Currency(o)) then Krw(env, o, ctx) > Balance(env, o, ctx)
                    else Size(o, ctx) > ctx.orderable.value;
    ListsOne(InsufficientOrderable, short, env, o, ctx, 13);
  }

  lemma QuantityLists(env: Env, o: Intent, ctx: Context)
    ensures Lists(When(o.qty > env.limits.maxContracts, MaxContracts), env, o, ctx, 0, 1)
  {
    hide Lists;
    ListsOne(MaxContracts, o.qty > env.limits.maxContracts, env, o, ctx, 0);
  }

  /** The scan lists exactly the limits the order breaks, each once, in their fixed order. */
  lemma RejectsAre(env: Env, o: Intent, ctx: Context)
    ensures Lists(Rejects(env, o, ctx), env, o, ctx, 0, 14)
  {
    hide Lists, Notional, NotionalKrw, NotionalRejects, DailyRejects, WeightRejects, CountRejects, OrderableRejects;
    var n := Notional(o.qty, o.price, ctx.multiplier);
    var krw := NotionalKrw(env, o, n);
    QuantityLists(env, o, ctx);
    NotionalLists(env, o, ctx);
    DailyLists(env, o, ctx);
    WeightLists(env, o, ctx);
    CountLists(env, o, ctx);
    OrderableLists(env, o, ctx);
    var r0 := When(o.qty > env.limits.maxContracts, MaxContracts);
    var r1 := r0 + NotionalRejects(env, o, n);
    var r2 := r1 + DailyRejects(env, o, krw);
    var r3 := r2 + WeightRejects(env, o, ctx, n);
    var r4 := r3 + CountRejects(env, o, ctx);
    ListsJoin(r0, NotionalRejects(env, o, n), env, o, ctx, 0, 1, 6);
    ListsJoin(r1, DailyRejects(env, o, krw), env, o, ctx, 0, 6, 7);
    ListsJoin(r2, WeightRejects(env, o, ctx, n), env, o, ctx, 0, 7, 10);
    ListsJoin(r3, CountRejects(env, o, ctx), env, o, ctx, 0, 10, 13);
    ListsJoin(r4, OrderableRejects(env, o, ctx, n, krw), env, o, ctx, 0, 13, 14);
  }

  // ----- the decision -----

  /** The warnings, in their order. */
  ghost function Notes(env: Env, o: Intent, ctx: Context): seq<Reason> {
    var ccy := Currency(o);
    (if o.price.Some? && ccy != "KRW" && ccy in env.fx.fixed && ccy !in env.fx.observed then [FxEstimated] else [])
    + (if ctx.orderable.None? then [OrderableUnknown] else [])
  }

  lemma WarnsAre(env: Env, o: Intent, ctx: Context)
    ensures Warns(env, o, ctx) == Notes(env, o, ctx)
  {
  }

  ghost predicate MarketOpen(env: Env, o: Intent) {
    match o.market
    case OverseasFutures => o.exchange == "HKEX" && env.whitelisted
    case KoreaStock => env.armed
    case OverseasStock => env.armed
    case Unlisted(_) => false
  }

  /** What locks a bucket: a halted day before a kill, and both before a quarantined order. */
  ghost predicate LockedFor(env: Env, r: Reason) {
    var halt := if env.risk.Some? then env.risk.value.halt else DailyLoss.Active;
    match r
    case HaltedDaily => halt.DailyHalt?
    case KillSwitch => !halt.DailyHalt? && (env.blocked || halt.Killed?)
    case QuarantinedOrders => halt.Active? && !env.blocked && env.quarantined
    case _ => false
  }

  ghost predicate Exits(o: Intent, ctx: Context) {
    o.kind.ExitOrder? && Reduces(ctx.positions, o)
  }

  ghost predicate Refused(d: Decision, rs: seq<Reason>, reclassified: bool) {
    d == Decision(Reject, rs, reclassified)
  }

  ghost predicate Locked(env: Env) {
    exists r :: LockedFor(env, r)
  }

  lemma LocksAre(env: Env)
    ensures HaltReason(env).Some? <==> Locked(env)
    ensures HaltReason(env).Some? ==> LockedFor(env, HaltReason(env).value)
    ensures forall r, s :: LockedFor(env, r) && LockedFor(env, s) ==> r == s
  {
    var halt := if env.risk.Some? then env.risk.value.halt else DailyLoss.Active;
    assert halt.DailyHalt? ==> LockedFor(env, HaltedDaily);
    assert !halt.DailyHalt? && (env.blocked || halt.Killed?) ==> LockedFor(env, KillSwitch);
    assert halt.Active? && !env.blocked && env.quarantined ==> LockedFor(env, QuarantinedOrders);
  }

  /** The decision, case by case: an inactive engine, a locked bucket or a closed market is the only reason of a
      refusal; a reducing exit then passes; any other order is refused for exactly the limits it breaks, in their order
      and followed by the warnings, let through with the warnings if there are any, and passed otherwise. An exit that
      reduces nothing is marked as reclassified. */
  lemma DecisionIs(env: Env, o: Intent, ctx: Context)
    ensures var d := PreCheck(env, o, ctx);
            var moved := o.kind.ExitOrder? && !Reduces(ctx.positions, o);
            if !env.engineActive then d == Decision(Reject, [EngineNotActive], false)
            else if !Exits(o, ctx) && Locked(env) then
              d.verdict.Reject? && |d.reasons| == 1 && LockedFor(env, d.reasons[0]) && d.reclassified == moved
            else if !MarketOpen(env, o) then
              d == Decision(Reject, [if o.market.OverseasFutures? then FutNotHkex else LiveDisabled], moved)
            else if Exits(o, ctx) then d == Decision(Pass, [], false)
            else if exists r: Reason :: Broken(r, env, o, ctx) then
              && d.verdict.Reject? && d.reclassified == moved
              && exists rs :: d.reasons == rs + Notes(env, o, ctx) && Lists(rs, env, o, ctx, 0, 14)
            else
              d == Decision(if Notes(env, o, ctx) == [] then Pass else Warn, Notes(env, o, ctx), moved)
  {
    hide Rejects, Warns, HaltReason, Reduces, ReduceOnly, Broken, LockedFor, Notes, Lists;
    ReducesIff(ctx.positions, o);
    LocksAre(env);
    RejectsAre(env, o, ctx);
    WarnsAre(env, o, ctx);
    AnyBroken(env, o, ctx);
  }

  lemma AnyBroken(env: Env, o: Intent, ctx: Context)
    requires Lists(Rejects(env, o, ctx), env, o, ctx, 0, 14)
    ensures Rejects(env, o, ctx) != [] <==> exists r: Reason :: Broken(r, env, o, ctx)
  {
    hide Rejects;
    BrokenPlaces(env, o, ctx);
    var rs := Rejects(env, o, ctx);
    if rs != [] {
      assert rs[0] in rs;
    }
  }

  lemma BrokenPlaces(env: Env, o: Intent, ctx: Context)
    ensures forall r: Reason :: Broken(r, env, o, ctx) ==> 0 <= Place(r) < 14
  {
    hide Size, Krw, Balance, After, Convertible;
  }

  /** An order is let through if and only if the engine is active and its market open, and it either reduces a held
      position or meets an unlocked bucket and breaks no limit. */
  lemma AdmittedIff(env: Env, o: Intent, ctx: Context)
    ensures PreCheck(env, o, ctx).Ok()
       <==> && env.engineActive && MarketOpen(env, o)
            && (Exits(o, ctx) || (!Locked(env) && forall r: Reason :: !Broken(r, env, o, ctx)))
  {
    hide Locked, Exits, Broken, Notes, Lists, PreCheck;
    DecisionIs(env, o, ctx);
  }
}
