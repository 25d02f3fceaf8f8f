/** The weights an order is projected to lead to, and their limits (`projected_weights` and `exposure_violations` of
    server/app/portfolio/metrics.py). */
module Exposure {
  import opened Wrappers
  import opened Concentration
  import opened ConcentrationBounds

  /** The plain sums of the source: no holding is skipped. */
  function SumAt(items: seq<Item>, axis: Axis, k: string): real {
    if items == [] then 0.0
    else SumAt(items[..|items| - 1], axis, k)
         + if KeyOf(axis, items[|items| - 1]) == k then items[|items| - 1].eval else 0.0
  }

  function SumAll(items: seq<Item>): real {
    if items == [] then 0.0 else SumAll(items[..|items| - 1]) + items[|items| - 1].eval
  }

  datatype Weighted = Weighted(symbol: real, market: real, currency: real)

  function Share(part: real, add: real, whole: real): real {
    if whole <= 0.0 then 0.0 else (part + add) / whole
  }

  function ProjectedWeights(items: seq<Item>, add: real, symbol: string, market: string, currency: string,
                            committed: real): Weighted
  {
    var whole := SumAll(items) + committed + add;
    Weighted(Share(SumAt(items, BySymbol, symbol), add, whole), Share(SumAt(items, ByMarket, market), add, whole),
             Share(SumAt(items, ByCurrency, currency), add, whole))
  }

  datatype WeightLimits = WeightLimits(symbol: real, market: real, currency: real)

  datatype Violation = MaxSymbolWeight | MaxMarketWeight | MaxCurrencyWeight

  function ExposureViolations(w: Weighted, limits: WeightLimits): seq<Violation> {
    (if w.symbol > limits.symbol then [MaxSymbolWeight] else [])
    + (if w.market > limits.market then [MaxMarketWeight] else [])
    + (if w.currency > limits.currency then [MaxCurrencyWeight] else [])
  }

  lemma NoViolations(w: Weighted, limits: WeightLimits)
    ensures ExposureViolations(w, limits) == []
       <==> w.symbol <= limits.symbol && w.market <= limits.market && w.currency <= limits.currency
  {
  }

  // ----- the projection is the weight after the fill -----

  ghost predicate Nonnegative(items: seq<Item>) {
    forall i :: 0 <= i < |items| ==> items[i].eval >= 0.0
  }

  lemma {:induction false} SumsAgree(items: seq<Item>, axis: Axis, k: string)
    requires Nonnegative(items)
    ensures SumAt(items, axis, k) == Held(items, axis, k) && SumAll(items) == Worth(items)
    ensures 0.0 <= SumAt(items, axis, k) <= SumAll(items)
  {
    hide KeyOf;
    if items != [] {
      SumsAgree(items[..|items| - 1], axis, k);
    }
  }

  /** The holding an order adds when it fills. */
  function Bought(add: real, symbol: string, market: string, currency: string): Item {
    Item(add, symbol, Some(market), Some(currency))
  }

  /** The weight of key `k` in the report on a book. */
  function WeightOf(items: seq<Item>, axis: Axis, k: string): real {
    var r := ReportOf(items);
    At(match axis case BySymbol => r.bySymbol case ByMarket => r.byMarket case ByCurrency => r.byCurrency, k)
  }

  lemma WeightIs(items: seq<Item>, axis: Axis, k: string)
    ensures WeightOf(items, axis, k) == if Worth(items) > 0.0 then Held(items, axis, k) / Worth(items) else 0.0
  {
    hide Total, SumSquares, Amounts, Max, NormHhi, Scaled, Held, Worth;
    AmountsAre(items, BySymbol);
    AmountsAt(items, axis, k);
    var d := Amounts(items, axis);
    if Worth(items) > 0.0 {
      ScaledAt(d, Worth(items), k);
    }
    EmptyAt(k);
  }

  lemma EmptyAt(k: string)
    ensures At([], k) == 0.0
  {
  }

  lemma ShareAfter(items: seq<Item>, it: Item, axis: Axis)
    requires Nonnegative(items) && it.eval >= 0.0
    ensures var k := KeyOf(axis, it);
            WeightOf(items + [it], axis, k) == Share(SumAt(items, axis, k), it.eval, SumAll(items) + 0.0 + it.eval)
  {
    hide WeightOf, KeyOf;
    var k := KeyOf(axis, it);
    var after := items + [it];
    assert after[..|items|] == items;
    assert Nonnegative(after);
    SumsAgree(after, axis, k);
    SumsAgree(items, axis, k);
    WeightIs(after, axis, k);
  }

  /** With nothing committed elsewhere, the projected weights are exactly the weights the report gives on the book
      after the fill. */
  lemma ProjectionIsAfterFill(items: seq<Item>, add: real, symbol: string, market: string, currency: string)
    requires Nonnegative(items) && add >= 0.0 && market != "" && currency != ""
    ensures var after := items + [Bought(add, symbol, market, currency)];
            ProjectedWeights(items, add, symbol, market, currency, 0.0)
              == Weighted(WeightOf(after, BySymbol, symbol), WeightOf(after, ByMarket, market),
                          WeightOf(after, ByCurrency, currency))
  {
    hide WeightOf, Share, SumAt, SumAll;
    var it := Bought(add, symbol, market, currency);
    ShareAfter(items, it, BySymbol);
    ShareAfter(items, it, ByMarket);
    ShareAfter(items, it, ByCurrency);
  }

  /** A projected weight beside the weight after the fill, when `held` of `worth` is under the key after it. */
  ghost predicate Hides(projected: real, weight: real, held: real, worth: real, committed: real) {
    && projected * (worth + committed) == held
    && projected <= weight
    && (projected == weight <==> committed == 0.0 || held == 0.0)
  }

  ghost predicate HidesOn(projected: real, items: seq<Item>, axis: Axis, k: string, committed: real) {
    Hides(projected, WeightOf(items, axis, k), Held(items, axis, k), Worth(items), committed)
  }

  /** Orders committed elsewhere only enter the denominator: a projected weight is the value under its key after the
      fill over the worth of the book after the fill and everything committed. It is the weight after the fill precisely
      when nothing is committed (or there is nothing under the key), and otherwise too low. */
  lemma CommittedHidesWeight(items: seq<Item>, add: real, symbol: string, market: string, currency: string,
                             committed: real)
    requires Nonnegative(items) && add >= 0.0 && committed >= 0.0 && market != "" && currency != ""
    requires Worth(items) + add > 0.0
    ensures var after := items + [Bought(add, symbol, market, currency)];
            var w := ProjectedWeights(items, add, symbol, market, currency, committed);
            && HidesOn(w.symbol, after, BySymbol, symbol, committed)
            && HidesOn(w.market, after, ByMarket, market, committed)
            && HidesOn(w.currency, after, ByCurrency, currency, committed)
  {
    hide Share, SumAt, SumAll, HidesOn, Held, Worth;
    var it := Bought(add, symbol, market, currency);
    HiddenOn(items, it, BySymbol, committed);
    HiddenOn(items, it, ByMarket, committed);
    HiddenOn(items, it, ByCurrency, committed);
  }

  lemma HiddenOn(items: seq<Item>, it: Item, axis: Axis, committed: real)
    requires Nonnegative(items) && it.eval >= 0.0 && committed >= 0.0 && Worth(items) + it.eval > 0.0
    ensures var k := KeyOf(axis, it);
            HidesOn(Share(SumAt(items, axis, k), it.eval, SumAll(items) + committed + it.eval), items + [it], axis, k,
                    committed)
  {
    hide WeightOf, KeyOf, Hides, Share, SumAt, SumAll, Held, Worth;
    var k := KeyOf(axis, it);
    SumsAgree(items, axis, k);
    HeldAfter(items, it, axis, k);
    ShareAfter(items, it, axis);
    CommittedShare(SumAt(items, axis, k), it.eval, SumAll(items), committed);
    assert SumAll(items) + 0.0 + it.eval == SumAll(items) + it.eval;
  }

  lemma HeldAfter(items: seq<Item>, it: Item, axis: Axis, k: string)
    requires it.eval >= 0.0
    ensures Held(items + [it], axis, k) == Held(items, axis, k) + if KeyOf(axis, it) == k then it.eval else 0.0
    ensures Worth(items + [it]) == Worth(items) + it.eval
  {
    hide KeyOf;
    assert (items + [it])[..|items|] == items;
  }

  lemma ShareTimes(part: real, add: real, whole: real)
    requires whole > 0.0
    ensures Share(part, add, whole) * whole == part + add
  {
  }

  lemma CommittedShare(part: real, add: real, whole: real, committed: real)
    requires part >= 0.0 && add >= 0.0 && committed >= 0.0 && whole + add > 0.0
    ensures Hides(Share(part, add, whole + committed + add), Share(part, add, whole + add), part + add, whole + add,
                  committed)
  {
    assert whole + add + committed == whole + committed + add;
    ShareTimes(part, add, whole + committed + add);
    SharesOrdered(part, add, whole, committed);
    hide Share;
  }

  lemma SharesOrdered(part: real, add: real, whole: real, committed: real)
    requires part >= 0.0 && add >= 0.0 && committed >= 0.0 && whole + add > 0.0
    ensures Share(part, add, whole + committed + add) <= Share(part, add, whole + add)
    ensures Share(part, add, whole + committed + add) == Share(part, add, whole + add)
       <==> committed == 0.0 || part + add == 0.0
  {
    var p, d, e := part + add, whole + add, whole + committed + add;
    if committed > 0.0 && p > 0.0 {
      ProductPositive(p, e - d);
      Distributes(p, e, d);
      FractionsOrdered(p, e, p, d);
    } else if p == 0.0 {
      ZeroOver(d);
      ZeroOver(e);
    }
  }

  lemma Distributes(p: real, e: real, d: real)
    ensures p * (e - d) == p * e - p * d
  {
  }

  lemma ZeroOver(d: real)
    requires d > 0.0
    ensures 0.0 / d == 0.0
  {
  }

  lemma Regroup(x: real, d: real, e: real)
    ensures x * d * e == x * (d * e) == x * e * d
  {
  }

  lemma Cancel(x: real, y: real, k: real)
    requires k > 0.0
    ensures x * k <= y * k <==> x <= y
  {
    if x > y {
      ProductPositive(x - y, k);
      Distributes(k, x, y);
    } else {
      AtMost(y - x, k);
      Distributes(k, y, x);
    }
  }

  lemma AtMost(x: real, k: real)
    requires x >= 0.0 && k > 0.0
    ensures x * k >= 0.0
  {
  }

  /** Comparing fractions by cross-multiplication. */
  lemma FractionsOrdered(a: real, d: real, b: real, e: real)
    requires d > 0.0 && e > 0.0
    ensures a / d <= b / e <==> a * e <= b * d
  {
    var x, y := a / d, b / e;
    assert x * d == a && y * e == b;
    ProductPositive(d, e);
    Regroup(x, d, e);
    Regroup(y, e, d);
    Regroup(y, d, e);
    Cancel(x, y, d * e);
  }

  /** Adding less leads to weights no larger. */
  lemma ShareGrows(part: real, rest: real, less: real, more: real)
    requires 0.0 <= part && 0.0 <= rest && 0.0 <= less <= more && part + rest + more > 0.0
    ensures Share(part, less, part + rest + less) <= Share(part, more, part + rest + more)
    ensures 0.0 <= Share(part, more, part + rest + more)
  {
    var d, e := part + rest + less, part + rest + more;
    FractionsOrdered(0.0, 1.0, part + more, e);
    if d > 0.0 {
      CrossDifference(part, rest, less, more);
      FractionsOrdered(part + less, d, part + more, e);
    }
  }

  lemma CrossDifference(part: real, rest: real, less: real, more: real)
    requires 0.0 <= rest && less <= more
    ensures (part + less) * (part + rest + more) <= (part + more) * (part + rest + less)
  {
    var a, b := part + less, more - less;
    assert (part + less) * (part + rest + more) == a * (a + rest) + a * b;
    assert (part + more) * (part + rest + less) == a * (a + rest) + b * a + b * rest;
    assert b * rest >= 0.0;
  }
}
