/** What the concentration report says about every book. */
module ConcentrationBounds {
  import opened Concentration

  /** The value of the holdings under one key, and of all of them. */
  function Held(items: seq<Item>, axis: Axis, k: string): real {
    if items == [] then 0.0
    else
      var it := items[|items| - 1];
      Held(items[..|items| - 1], axis, k) + if it.eval > 0.0 && KeyOf(axis, it) == k then it.eval else 0.0
  }

  function Worth(items: seq<Item>): real {
    if items == [] then 0.0
    else Worth(items[..|items| - 1]) + if items[|items| - 1].eval > 0.0 then items[|items| - 1].eval else 0.0
  }

  lemma {:induction false} AmountsAre(items: seq<Item>, axis: Axis)
    ensures var d := Amounts(items, axis);
            DistinctKeys(d) && AllPositive(d) && Total(d) == Worth(items)
  {
    hide Plus, Total, DistinctKeys, AllPositive, KeyOf;
    if items == [] {
      EmptyDict();
    } else {
      var it := items[|items| - 1];
      var before := Amounts(items[..|items| - 1], axis);
      AmountsAre(items[..|items| - 1], axis);
      if it.eval > 0.0 {
        PlusKeys(before, KeyOf(axis, it), it.eval);
        PlusPositive(before, KeyOf(axis, it), it.eval);
        PlusTotal(before, KeyOf(axis, it), it.eval);
      }
    }
  }

  lemma EmptyDict()
    ensures DistinctKeys([]) && AllPositive([]) && Total([]) == 0.0
  {
  }

  lemma {:induction false} AmountsAt(items: seq<Item>, axis: Axis, k: string)
    ensures At(Amounts(items, axis), k) == Held(items, axis, k)
  {
    hide Plus, KeyOf;
    if items != [] {
      var it := items[|items| - 1];
      AmountsAt(items[..|items| - 1], axis, k);
      PlusAt(Amounts(items[..|items| - 1], axis), KeyOf(axis, it), it.eval, k);
    }
  }

  // ----- scaling -----

  lemma ProductPositive(x: real, y: real)
    requires x > 0.0 && y > 0.0
    ensures x * y > 0.0
  {
  }

  lemma SquarePositive(t: real)
    requires t > 0.0
    ensures Square(t) > 0.0
  {
    calc {
      Square(t);
    == t * t;
    > { ProductPositive(t, t); }
      0.0;
    }
  }

  lemma Divides(x: real, y: real, t: real)
    requires t != 0.0
    ensures x / t + y / t == (x + y) / t
    ensures x > 0.0 && t > 0.0 ==> x / t > 0.0
  {
    var a := x / t;
    assert a * t == x;
    if t > 0.0 && x > 0.0 && a < 0.0 { ProductPositive(-a, t); }
  }

  lemma SquareOfQuotient(x: real, t: real)
    requires t > 0.0
    ensures Square(t) > 0.0 && Square(x / t) == Square(x) / Square(t)
  {
    SquarePositive(t);
    var a := x / t;
    assert a * t == x;
    assert x * x == (a * t) * (a * t) == a * a * (t * t);
    Cancels(a * a, t * t);
  }

  lemma Cancels(x: real, t: real)
    requires t != 0.0
    ensures x * t / t == x
  {
  }

  lemma {:induction false} ScaledSums(d: Dict, t: real)
    requires t > 0.0
    ensures Total(Scaled(d, t)) == Total(d) / t
    ensures Square(t) > 0.0
    ensures SumSquares(Scaled(d, t)) == SumSquares(d) / Square(t)
    ensures AllPositive(d) ==> AllPositive(Scaled(d, t))
  {
    hide Square;
    SquarePositive(t);
    if d != [] {
      var n := |d| - 1;
      ScaledSums(d[..n], t);
      assert Scaled(d, t)[..n] == Scaled(d[..n], t);
      Divides(Total(d[..n]), d[n].amount, t);
      Divides(SumSquares(d[..n]), Square(d[n].amount), Square(t));
      SquareOfQuotient(d[n].amount, t);
      Divides(d[n].amount, 0.0, t);
      forall i | 0 <= i < |d| && AllPositive(d) ensures Scaled(d, t)[i].amount > 0.0 {
        Divides(d[i].amount, 0.0, t);
      }
    }
  }

  lemma {:induction false} ScaledAt(d: Dict, t: real, k: string)
    requires t > 0.0
    ensures At(Scaled(d, t), k) == At(d, k) / t
  {
    if d != [] {
      ScaledAt(d[..|d| - 1], t, k);
      assert Scaled(d, t)[..|d| - 1] == Scaled(d[..|d| - 1], t);
    }
  }

  // ----- sums of squares -----

  /** The squared distances of the amounts from `x`, summed. */
  lemma {:induction false} SpreadNonnegative(d: Dict, x: real)
    ensures SumSquares(d) - 2.0 * x * Total(d) + |d| as real * Square(x) >= 0.0
  {
    if d != [] {
      var n := |d| - 1;
      SpreadNonnegative(d[..n], x);
      Spread(SumSquares(d[..n]), Total(d[..n]), n as real, d[n].amount, x);
    }
  }

  lemma Spread(q: real, s: real, n: real, a: real, x: real)
    requires q - 2.0 * x * s + n * Square(x) >= 0.0
    ensures q + Square(a) - 2.0 * x * (s + a) + (n + 1.0) * Square(x) >= 0.0
  {
    var gap := a - x;
    assert gap * gap == Square(a) - 2.0 * x * a + Square(x);
    assert gap * gap >= 0.0;
  }

  /** Weights that sum to one have squares that sum to at least one over their number. */
  lemma CauchySchwarz(d: Dict)
    requires d != [] && Total(d) == 1.0
    ensures SumSquares(d) >= 1.0 / |d| as real
  {
    var n := |d| as real;
    var x := 1.0 / n;
    SpreadNonnegative(d, x);
    hide SumSquares;
    assert n * x == 1.0;
    assert n * Square(x) == x * (n * x) == x;
  }

  lemma {:induction false} SquaresBelowMax(d: Dict, m: real)
    requires d != [] && AllPositive(d) && m >= Max(d)
    ensures 0.0 < Max(d) <= Total(d)
    ensures SumSquares(d) <= m * Total(d)
  {
    hide Square;
    var n := |d| - 1;
    Scale(d[n].amount, m);
    if n > 0 {
      SquaresBelowMax(d[..n], m);
    }
  }

  lemma Scale(a: real, m: real)
    requires 0.0 < a <= m
    ensures Square(a) <= m * a
  {
  }

  // ----- the report -----

  ghost predicate Valued(items: seq<Item>) {
    exists i :: 0 <= i < |items| && items[i].eval > 0.0
  }

  lemma {:induction false} WorthPositive(items: seq<Item>)
    ensures Worth(items) >= 0.0 && (Valued(items) <==> Worth(items) > 0.0)
  {
    if items != [] {
      var n := |items| - 1;
      WorthPositive(items[..n]);
      if i :| 0 <= i < |items| && items[i].eval > 0.0 {
        if i < n { assert items[..n][i].eval > 0.0; }
      }
      if Valued(items[..n]) {
        var i :| 0 <= i < n && items[..n][i].eval > 0.0;
        assert items[i].eval > 0.0;
      }
    }
  }

  lemma WeightsAre(items: seq<Item>, axis: Axis)
    requires Valued(items)
    ensures var w := Weights(Amounts(items, axis), Worth(items));
            w != [] && Total(w) == 1.0 && AllPositive(w) && |w| == |Amounts(items, axis)|
  {
    hide Total, Amounts;
    AmountsAre(items, axis);
    WorthPositive(items);
    var d := Amounts(items, axis);
    if d == [] { EmptyDict(); }
    ScaledSums(d, Worth(items));
    Cancels(1.0, Worth(items));
  }

  /** For every book with something in it: weights sum to one on each axis, the Herfindahl index lies between 1/n and
      the largest weight, the effective number of symbols between 1 and n, the normalised index between 0 and 1. */
  lemma BookBounds(items: seq<Item>)
    requires Valued(items)
    ensures var r := ReportOf(items);
            && r.n >= 1 && Total(r.bySymbol) == Total(r.byMarket) == Total(r.byCurrency) == 1.0
            && 1.0 / r.n as real <= r.hhi <= r.top1 <= 1.0
            && 1.0 <= r.effN <= r.n as real
            && 0.0 <= r.normHhi <= 1.0
  {
    hide Total, SumSquares, Amounts, Max, Weights, NormHhi;
    AmountsAre(items, BySymbol);
    WeightsAre(items, BySymbol);
    WeightsAre(items, ByMarket);
    WeightsAre(items, ByCurrency);
    var w := Weights(Amounts(items, BySymbol), Worth(items));
    CauchySchwarz(w);
    SquaresBelowMax(w, Max(w));
    Inverse(SumSquares(w), |w|);
    NormBounds(SumSquares(w), |w|);
  }

  lemma Inverse(h: real, n: nat)
    requires n >= 1 && 1.0 / n as real <= h <= 1.0
    ensures h > 0.0 && 1.0 <= 1.0 / h <= n as real
  {
    var x := 1.0 / n as real;
    assert x * n as real == 1.0;
    assert h * n as real >= x * n as real;
    assert (1.0 / h) * h == 1.0;
  }

  lemma NormBounds(h: real, n: nat)
    requires n >= 1 && 1.0 / n as real <= h <= 1.0
    ensures 0.0 <= NormHhi(h, n) <= 1.0
  {
    if n > 1 {
      var x := 1.0 / n as real;
      assert x * n as real == 1.0;
      assert x < 1.0;
      Fraction(h - x, 1.0 - x);
    }
  }

  lemma Fraction(p: real, t: real)
    requires t > 0.0 && 0.0 <= p <= t
    ensures 0.0 <= p / t <= 1.0
  {
    var q := p / t;
    assert q * t == p;
    if q < 0.0 { ProductPositive(-q, t); }
    if q > 1.0 { ProductPositive(q - 1.0, t); }
  }

  /** A book with nothing of value reports zeros. */
  lemma EmptyBook(items: seq<Item>)
    requires !Valued(items)
    ensures ReportOf(items) == Report(0, 0.0, 0.0, 0.0, 0.0, 0.0, [], [], [])
  {
    hide Amounts;
    NothingValued(items, BySymbol);
    NothingValued(items, ByCurrency);
  }

  lemma {:induction false} NothingValued(items: seq<Item>, axis: Axis)
    requires !Valued(items)
    ensures Amounts(items, axis) == []
  {
    if items != [] {
      var rest := items[..|items| - 1];
      forall i | 0 <= i < |rest| ensures rest[i].eval <= 0.0 { assert items[i].eval <= 0.0; }
      NothingValued(rest, axis);
    }
  }

  // ----- currencies -----

  /** No symbol is held in two currencies. */
  ghost predicate OneCurrencyEach(items: seq<Item>) {
    forall i, j :: 0 <= i < |items| && 0 <= j < |items| && items[i].symbol == items[j].symbol
                   ==> Label(items[i].currency) == Label(items[j].currency)
  }

  lemma {:induction false} SymbolWithinCurrency(items: seq<Item>, s: string, c: string)
    requires forall i :: 0 <= i < |items| && items[i].symbol == s ==> Label(items[i].currency) == c
    ensures 0.0 <= Held(items, BySymbol, s) <= Held(items, ByCurrency, c)
  {
    if items != [] {
      var rest := items[..|items| - 1];
      forall i | 0 <= i < |rest| && rest[i].symbol == s ensures Label(rest[i].currency) == c {
        assert items[i].symbol == s;
      }
      SymbolWithinCurrency(rest, s, c);
    }
  }

  lemma {:induction false} SquaresGrow(items: seq<Item>)
    requires OneCurrencyEach(items)
    ensures SumSquares(Amounts(items, BySymbol)) <= SumSquares(Amounts(items, ByCurrency))
  {
    hide SumSquares, Plus, Square, Cross, At, Held;
    if items == [] {
    } else {
      var n := |items| - 1;
      var rest, it := items[..n], items[n];
      forall i, j | 0 <= i < n && 0 <= j < n && rest[i].symbol == rest[j].symbol
        ensures Label(rest[i].currency) == Label(rest[j].currency)
      {
        assert items[i].symbol == items[j].symbol;
      }
      SquaresGrow(rest);
      if it.eval > 0.0 {
        var s, c := it.symbol, Label(it.currency);
        forall i | 0 <= i < |rest| && rest[i].symbol == s ensures Label(rest[i].currency) == c {
          assert items[i].symbol == items[n].symbol;
        }
        SymbolWithinCurrency(rest, s, c);
        AmountsAt(rest, BySymbol, s);
        AmountsAt(rest, ByCurrency, c);
        PlusSquares(Amounts(rest, BySymbol), s, it.eval);
        PlusSquares(Amounts(rest, ByCurrency), c, it.eval);
        Monotone(it.eval, At(Amounts(rest, BySymbol), s), At(Amounts(rest, ByCurrency), c));
      }
    }
  }

  lemma Monotone(v: real, x: real, y: real)
    requires v > 0.0 && x <= y
    ensures Cross(v, x) <= Cross(v, y)
  {
  }

  /** When no symbol is held in two currencies, the book is at least as concentrated by currency as by symbol. */
  lemma CurrencyAtLeastSymbol(items: seq<Item>)
    requires Valued(items) && OneCurrencyEach(items)
    ensures ReportOf(items).currencyHhi >= ReportOf(items).hhi
  {
    hide Total, SumSquares, Amounts, Square, Max, NormHhi;
    AmountsAre(items, BySymbol);
    WorthPositive(items);
    SquaresGrow(items);
    var t := Worth(items);
    SquarePositive(t);
    ScaledSums(Amounts(items, BySymbol), t);
    ScaledSums(Amounts(items, ByCurrency), t);
    Shrink(SumSquares(Amounts(items, BySymbol)), SumSquares(Amounts(items, ByCurrency)), Square(t));
  }

  lemma Shrink(x: real, y: real, t: real)
    requires t > 0.0 && x <= y
    ensures x / t <= y / t
  {
    assert x / t * t == x && y / t * t == y;
  }
}
