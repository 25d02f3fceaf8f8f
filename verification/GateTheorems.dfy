/** What the gate guarantees about the orders it lets through. */
module GateTheorems {
  import opened Wrappers
  import opened Concentration
  import opened ConcentrationBounds
  import opened Exposure
  import opened RiskGate

  /** Prices, multipliers, values, rates and commitments are not negative. */
  ghost predicate Sane(env: Env, o: Intent, ctx: Context) {
    && (o.price.Some? ==> o.price.value >= 0.0)
    && (ctx.multiplier.Some? ==> ctx.multiplier.value >= 0.0)
    && (forall p <- ctx.positions :: p.eval >= 0.0)
    && ctx.committed >= 0.0
    && env.fx.Rate(CurrencyOf(o)).0 >= 0.0 && env.fx.buffer >= 0.0
  }

  lemma TimesGrows(x: real, y: real, k: real)
    requires x <= y && k >= 0.0
    ensures Times(x, k) <= Times(y, k)
  {
  }

  lemma TimesSign(x: real, k: real)
    requires x >= 0.0 && k >= 0.0
    ensures Times(x, k) >= 0.0
    ensures Times(x, k) > 0.0 ==> k > 0.0
    ensures x > 0.0 && k > 0.0 ==> Times(x, k) > 0.0
  {
    if x > 0.0 && k > 0.0 { ProductPositive(x, k); }
  }

  /** A smaller quantity has a smaller notional of the same sign. */
  lemma NotionalShrinks(o: Intent, ctx: Context, q: nat)
    requires 1 <= q <= o.qty && o.price.Some? && o.price.value >= 0.0
    requires ctx.multiplier.Some? ==> ctx.multiplier.value >= 0.0
    ensures var less, more := Notional(q, o.price, ctx.multiplier).value, Notional(o.qty, o.price, ctx.multiplier).value;
            0.0 <= less <= more && (more > 0.0 ==> less > 0.0)
  {
    hide Times;
    var m := if ctx.multiplier.Some? && ctx.multiplier.value != 0.0 then ctx.multiplier.value else 1.0;
    TimesSign(o.price.value, m);
    TimesGrows(q as real, o.qty as real, Times(o.price.value, m));
    TimesSign(q as real, Times(o.price.value, m));
    TimesSign(o.qty as real, Times(o.price.value, m));
  }

  lemma CeilNonnegative(env: Env, ccy: string)
    requires env.fx.Rate(ccy).0 >= 0.0 && env.fx.buffer >= 0.0
    ensures env.fx.Ceil(ccy) >= 0.0
  {
    if ccy != "KRW" {
      AtMost(env.fx.Rate(ccy).0, 1.0 + env.fx.buffer);
    }
  }

  /** Orders are judged at a rate no lower than the market's and balances at one no higher; only won, and rates
      without margin, are taken as they are. */
  lemma RatesAreCautious(fx: Fx, ccy: string)
    requires fx.Rate(ccy).0 > 0.0 && fx.buffer >= 0.0
    ensures fx.Floor(ccy) <= fx.Rate(ccy).0 <= fx.Ceil(ccy)
    ensures fx.Floor(ccy) == fx.Ceil(ccy) <==> ccy == "KRW" || fx.buffer == 0.0
  {
    if ccy != "KRW" {
      var r := fx.Rate(ccy).0;
      assert fx.Ceil(ccy) == r + r * fx.buffer && fx.Floor(ccy) == r - r * fx.buffer;
      if fx.buffer > 0.0 {
        ProductPositive(r, fx.buffer);
      }
    }
  }

  lemma CapsMonotone(env: Env, o: Intent, ctx: Context, q: nat)
    requires Sane(env, o, ctx) && 1 <= q <= o.qty
    ensures var p := o.(qty := q);
            var more, less := Notional(o.qty, o.price, ctx.multiplier), Notional(q, o.price, ctx.multiplier);
            var km, kl := NotionalKrw(env, o, more), NotionalKrw(env, p, less);
            && (NotionalRejects(env, o, more) == [] ==> NotionalRejects(env, p, less) == [])
            && (DailyRejects(env, o, km) == [] ==> DailyRejects(env, p, kl) == [])
            && (OrderableRejects(env, o, ctx, more, km) == [] ==> OrderableRejects(env, p, ctx, less, kl) == [])
  {
    hide Times, Notional, CurrencyOf;
    NoNotional(o, ctx, q);
    if o.price.Some? {
      NotionalShrinks(o, ctx, q);
      SameCurrency(o, q);
      CeilNonnegative(env, CurrencyOf(o));
      TimesGrows(Notional(q, o.price, ctx.multiplier).value, Notional(o.qty, o.price, ctx.multiplier).value,
                 env.fx.Ceil(CurrencyOf(o)));
    }
  }

  lemma SameCurrency(o: Intent, q: nat)
    ensures CurrencyOf(o.(qty := q)) == CurrencyOf(o)
  {
  }

  lemma NoNotional(o: Intent, ctx: Context, q: nat)
    ensures Notional(q, o.price, ctx.multiplier).Some? <==> o.price.Some?
    ensures Notional(o.qty, o.price, ctx.multiplier).Some? <==> o.price.Some?
  {
  }

  lemma BookNonnegative(ctx: Context)
    requires forall p <- ctx.positions :: p.eval >= 0.0
    ensures Nonnegative(Book(ctx.positions))
  {
    forall i | 0 <= i < |ctx.positions| ensures Book(ctx.positions)[i].eval >= 0.0 {
      assert ctx.positions[i] in ctx.positions;
    }
  }

  lemma WithinOrNot(vs: seq<Violation>)
    ensures WeightReasons(vs) == [] <==> vs == []
  {
  }

  lemma WeightsMonotone(env: Env, o: Intent, ctx: Context, q: nat)
    requires Sane(env, o, ctx) && 1 <= q <= o.qty
    requires WeightRejects(env, o, ctx, Notional(o.qty, o.price, ctx.multiplier)) == []
    ensures WeightRejects(env, o.(qty := q), ctx, Notional(q, o.price, ctx.multiplier)) == []
  {
    hide Times, Notional, ExposureViolations, WeightReasons, CurrencyOf, Book, ProjectedWeights;
    NoNotional(o, ctx, q);
    if ctx.positions != [] && o.price.Some? {
      var p := o.(qty := q);
      SameCurrency(o, q);
      var rate := env.fx.Rate(CurrencyOf(o)).0;
      var n, m := Notional(q, o.price, ctx.multiplier).value, Notional(o.qty, o.price, ctx.multiplier).value;
      NotionalShrinks(o, ctx, q);
      TimesGrows(n, m, rate);
      TimesSign(n, rate);
      BookNonnegative(ctx);
      WithinOrNot(ExposureViolations(Projected(env, o, ctx, m), env.limits.weights));
      NoViolations(Projected(env, o, ctx, m), env.limits.weights);
      ProjectionMonotone(Book(ctx.positions), Times(n, rate), Times(m, rate), o.symbol, MarketName(o.market),
                         CurrencyOf(o), ctx.committed, env.limits.weights);
      NoViolations(Projected(env, p, ctx, n), env.limits.weights);
      WithinOrNot(ExposureViolations(Projected(env, p, ctx, n), env.limits.weights));
    }
  }

  ghost predicate Within(w: Weighted, lim: WeightLimits) {
    w.symbol <= lim.symbol && w.market <= lim.market && w.currency <= lim.currency
  }

  lemma ProjectionMonotone(items: seq<Item>, less: real, more: real, symbol: string, market: string, currency: string,
                           committed: real, lim: WeightLimits)
    requires Nonnegative(items) && 0.0 <= less <= more && committed >= 0.0
    requires Within(ProjectedWeights(items, more, symbol, market, currency, committed), lim)
    ensures Within(ProjectedWeights(items, less, symbol, market, currency, committed), lim)
  {
    hide SumAt, SumAll, Share;
    ShareMonotone(items, BySymbol, symbol, less, more, committed);
    ShareMonotone(items, ByMarket, market, less, more, committed);
    ShareMonotone(items, ByCurrency, currency, less, more, committed);
  }

  lemma ShareMonotone(items: seq<Item>, axis: Axis, k: string, less: real, more: real, committed: real)
    requires Nonnegative(items) && 0.0 <= less <= more && committed >= 0.0
    ensures Share(SumAt(items, axis, k), less, SumAll(items) + committed + less)
         <= Share(SumAt(items, axis, k), more, SumAll(items) + committed + more)
  {
    hide SumAt, SumAll;
    SumsAgree(items, axis, k);
    var part := SumAt(items, axis, k);
    var rest := SumAll(items) - part + committed;
    assert part + rest + less == SumAll(items) + committed + less;
    assert part + rest + more == SumAll(items) + committed + more;
    if part + rest + more > 0.0 {
      ShareGrows(part, rest, less, more);
    }
  }

  // ----- smaller orders -----

  /** Whatever the gate lets through at one quantity it lets through at every smaller one, also when the larger order
      was an exit it treated as an entry and the smaller one really reduces the position. */
  lemma GateMonotone(env: Env, o: Intent, ctx: Context, q: nat)
    requires Sane(env, o, ctx) && 1 <= q <= o.qty
    requires PreCheck(env, o, ctx).Ok()
    ensures PreCheck(env, o.(qty := q), ctx).Ok()
  {
    hide Holding, Warns, NotionalRejects, DailyRejects, WeightRejects, OrderableRejects, Notional, HaltReason, Sane;
    var p := o.(qty := q);
    assert EffectiveExit(o, ctx) ==> EffectiveExit(p, ctx);
    assert GuardReason(env, p) == GuardReason(env, o);
    if !EffectiveExit(o, ctx) && !EffectiveExit(p, ctx) {
      CapsMonotone(env, o, ctx, q);
      WeightsMonotone(env, o, ctx, q);
    }
  }

  /** An entry let through on a book that is not empty leaves the symbol, market and currency weights of the book
      after its fill within their limits, when nothing else is committed. */
  lemma AdmittedKeepsWeights(env: Env, o: Intent, ctx: Context)
    requires Sane(env, o, ctx) && ctx.committed == 0.0 && ctx.positions != [] && o.price.Some?
    requires !EffectiveExit(o, ctx) && PreCheck(env, o, ctx).Ok()
    ensures var n := Notional(o.qty, o.price, ctx.multiplier).value;
            var ccy := CurrencyOf(o);
            var after := Book(ctx.positions)
                         + [Bought(Times(n, env.fx.Rate(ccy).0), o.symbol, MarketName(o.market), ccy)];
            var lim := env.limits.weights;
            && WeightOf(after, BySymbol, o.symbol) <= lim.symbol
            && WeightOf(after, ByMarket, MarketName(o.market)) <= lim.market
            && WeightOf(after, ByCurrency, ccy) <= lim.currency
  {
    hide Notional, NotionalRejects, DailyRejects, OrderableRejects, CountRejects, Times, ProjectedWeights, WeightOf, Book;
    var n := Notional(o.qty, o.price, ctx.multiplier);
    NoNotional(o, ctx, o.qty);
    NotionalNonnegative(o, ctx);
    BookNonnegative(ctx);
    TimesSign(n.value, env.fx.Rate(CurrencyOf(o)).0);
    assert WeightRejects(env, o, ctx, n) == [];
    WithinOrNot(ExposureViolations(Projected(env, o, ctx, n.value), env.limits.weights));
    NoViolations(Projected(env, o, ctx, n.value), env.limits.weights);
    ProjectionIsAfterFill(Book(ctx.positions), Times(n.value, env.fx.Rate(CurrencyOf(o)).0), o.symbol,
                          MarketName(o.market), CurrencyOf(o));
  }

  lemma NotionalNonnegative(o: Intent, ctx: Context)
    requires o.price.Some? && o.price.value >= 0.0
    requires ctx.multiplier.Some? ==> ctx.multiplier.value >= 0.0
    ensures Notional(o.qty, o.price, ctx.multiplier).value >= 0.0
  {
    hide Times;
    var m := if ctx.multiplier.Some? && ctx.multiplier.value != 0.0 then ctx.multiplier.value else 1.0;
    TimesSign(o.price.value, m);
    TimesSign(o.qty as real, Times(o.price.value, m));
  }
}
