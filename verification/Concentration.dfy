/** Concentration of a book and the weights an order would lead to (server/app/portfolio/metrics.py). */
module Concentration {
  import opened Wrappers

  /** A holding; `eval` is its value in KRW. */
  datatype Item = Item(eval: real, symbol: string, market: Option<string>, currency: Option<string>)

  datatype Axis = BySymbol | ByMarket | ByCurrency

  function Label(o: Option<string>): string {
    OrElse(o, "?")
  }

  function KeyOf(axis: Axis, it: Item): string {
    match axis
    case BySymbol => it.symbol
    case ByMarket => Label(it.market)
    case ByCurrency => Label(it.currency)
  }

  /** An insertion-ordered dictionary of amounts. */
  datatype Entry = Entry(key: string, amount: real)
  type Dict = seq<Entry>

  function At(d: Dict, k: string): real {
    if d == [] then 0.0 else if d[|d| - 1].key == k then d[|d| - 1].amount else At(d[..|d| - 1], k)
  }

  predicate HasKey(d: Dict, k: string) {
    exists i :: 0 <= i < |d| && d[i].key == k
  }

  /** `d[k] += v`. */
  function Plus(d: Dict, k: string, v: real): Dict {
    if d == [] then [Entry(k, v)]
    else
      var n := |d| - 1;
      if d[n].key == k then d[..n] + [Entry(k, d[n].amount + v)]
      else if !HasKey(d[..n], k) then d + [Entry(k, v)]
      else Plus(d[..n], k, v) + [d[n]]
  }

  function Total(d: Dict): real {
    if d == [] then 0.0 else Total(d[..|d| - 1]) + d[|d| - 1].amount
  }

  function Square(x: real): real { x * x }

  function SumSquares(d: Dict): real {
    if d == [] then 0.0 else SumSquares(d[..|d| - 1]) + Square(d[|d| - 1].amount)
  }

  function Max(d: Dict): real
    requires d != []
  {
    var rest := d[..|d| - 1];
    if rest == [] || Max(rest) < d[|d| - 1].amount then d[|d| - 1].amount else Max(rest)
  }

  function Scaled(d: Dict, total: real): Dict
    requires total > 0.0
  {
    seq(|d|, i requires 0 <= i < |d| => Entry(d[i].key, d[i].amount / total))
  }

  function Weights(d: Dict, total: real): Dict {
    if total > 0.0 then Scaled(d, total) else []
  }

  /** The amounts of the valued holdings, by key, in order of first appearance. */
  function Amounts(items: seq<Item>, axis: Axis): Dict {
    if items == [] then []
    else
      var before := Amounts(items[..|items| - 1], axis);
      var it := items[|items| - 1];
      if it.eval <= 0.0 then before else Plus(before, KeyOf(axis, it), it.eval)
  }

  datatype Report = Report(n: nat, hhi: real, normHhi: real, effN: real, top1: real, currencyHhi: real,
                           bySymbol: Dict, byMarket: Dict, byCurrency: Dict)

  function NormHhi(hhi: real, n: nat): real {
    if n > 1 then (hhi - 1.0 / n as real) / (1.0 - 1.0 / n as real) else 0.0
  }

  function ReportOf(items: seq<Item>): Report {
    var symbols := Amounts(items, BySymbol);
    var total := Total(symbols);
    var sym, cur := Weights(symbols, total), Weights(Amounts(items, ByCurrency), total);
    var hhi := SumSquares(sym);
    Report(|symbols|, hhi, NormHhi(hhi, |symbols|), if hhi > 0.0 then 1.0 / hhi else 0.0,
           if sym == [] then 0.0 else Max(sym), SumSquares(cur),
           sym, Weights(Amounts(items, ByMarket), total), cur)
  }

  lemma NothingYet(items: seq<Item>)
    ensures forall axis :: Amounts(items[..0], axis) == []
  {
  }

  lemma AmountsStep(items: seq<Item>, i: nat, axis: Axis)
    requires i < |items|
    ensures Amounts(items[..i + 1], axis)
         == if items[i].eval <= 0.0 then Amounts(items[..i], axis)
            else Plus(Amounts(items[..i], axis), KeyOf(axis, items[i]), items[i].eval)
  {
    hide Plus, KeyOf;
    assert items[..i + 1][..i] == items[..i];
  }

  /** The accumulating loop. */
  method ComputeConcentration(items: seq<Item>) returns (r: Report)
    ensures r == ReportOf(items)
  {
    hide Amounts, Plus, Total, SumSquares, Max, Scaled, Label;
    var bySymbol, byMarket, byCurrency: Dict := [], [], [];
    var i := 0;
    NothingYet(items);
    while i < |items|
      invariant 0 <= i <= |items|
      invariant bySymbol == Amounts(items[..i], BySymbol)
      invariant byMarket == Amounts(items[..i], ByMarket)
      invariant byCurrency == Amounts(items[..i], ByCurrency)
    {
      var it := items[i];
      AmountsStep(items, i, BySymbol);
      AmountsStep(items, i, ByMarket);
      AmountsStep(items, i, ByCurrency);
      if it.eval > 0.0 {
        bySymbol := Plus(bySymbol, it.symbol, it.eval);
        byMarket := Plus(byMarket, Label(it.market), it.eval);
        byCurrency := Plus(byCurrency, Label(it.currency), it.eval);
      }
      i := i + 1;
    }
    assert items[..i] == items;
    var total := Total(bySymbol);
    var n := |bySymbol|;
    var sym, cur := Weights(bySymbol, total), Weights(byCurrency, total);
    var hhi := SumSquares(sym);
    var norm := if n > 1 then (hhi - 1.0 / n as real) / (1.0 - 1.0 / n as real) else 0.0;
    var effN := if hhi > 0.0 then 1.0 / hhi else 0.0;
    var top1 := if sym == [] then 0.0 else Max(sym);
    r := Report(n, hhi, norm, effN, top1, SumSquares(cur), sym, Weights(byMarket, total), cur);
  }

  // ----- dictionaries -----

  ghost predicate DistinctKeys(d: Dict) {
    forall i, j :: 0 <= i < j < |d| ==> d[i].key != d[j].key
  }

  ghost predicate AllPositive(d: Dict) {
    forall i :: 0 <= i < |d| ==> d[i].amount > 0.0
  }

  lemma {:induction false} AtAbsent(d: Dict, k: string)
    requires !HasKey(d, k)
    ensures At(d, k) == 0.0
  {
    if d != [] {
      var rest := d[..|d| - 1];
      forall i | 0 <= i < |rest| ensures rest[i].key != k { assert d[i].key != k; }
      AtAbsent(rest, k);
    }
  }

  lemma {:induction false} PlusAt(d: Dict, k: string, v: real, q: string)
    ensures At(Plus(d, k, v), q) == At(d, q) + if q == k then v else 0.0
  {
    if d != [] {
      var n := |d| - 1;
      var e := Plus(d, k, v);
      if d[n].key == k {
        assert e[..n] == d[..n];
      } else if !HasKey(d[..n], k) {
        assert e[..|d|] == d;
        AtAbsent(d[..n], k);
      } else {
        PlusAt(d[..n], k, v, q);
        assert e[..|e| - 1] == Plus(d[..n], k, v);
      }
    }
  }

  lemma {:induction false} PlusTotal(d: Dict, k: string, v: real)
    ensures Total(Plus(d, k, v)) == Total(d) + v
  {
    if d == [] {
      assert [Entry(k, v)][..0] == [];
    } else {
      var n := |d| - 1;
      var e := Plus(d, k, v);
      if d[n].key == k {
        assert e[..n] == d[..n];
      } else if !HasKey(d[..n], k) {
        assert e[..|d|] == d;
      } else {
        PlusTotal(d[..n], k, v);
        assert e[..|e| - 1] == Plus(d[..n], k, v);
      }
    }
  }

  function Cross(v: real, x: real): real { 2.0 * v * x }

  lemma SquareOfSum(x: real, v: real)
    ensures Square(x + v) == Square(x) + Square(v) + Cross(v, x)
    ensures Cross(v, 0.0) == 0.0
  {
  }

  /** Adding to a key adds the square of the amount and twice its product with what was there. */
  lemma {:induction false} PlusSquares(d: Dict, k: string, v: real)
    ensures SumSquares(Plus(d, k, v)) == SumSquares(d) + Square(v) + Cross(v, At(d, k))
  {
    hide Square, Cross;
    SquareOfSum(0.0, v);
    if d == [] {
      assert [Entry(k, v)][..0] == [];
    } else {
      var n := |d| - 1;
      var e := Plus(d, k, v);
      if d[n].key == k {
        assert e[..n] == d[..n];
        SquareOfSum(d[n].amount, v);
      } else if !HasKey(d[..n], k) {
        assert e[..|d|] == d;
        AtAbsent(d[..n], k);
      } else {
        PlusSquares(d[..n], k, v);
        assert e[..|e| - 1] == Plus(d[..n], k, v);
      }
    }
  }

  /** A known key stays where it is; a new one goes to the end. */
  lemma {:induction false} PlusShape(d: Dict, k: string, v: real)
    ensures var e := Plus(d, k, v);
            && |e| == |d| + (if HasKey(d, k) then 0 else 1)
            && (forall i :: 0 <= i < |d| ==> e[i].key == d[i].key)
            && (!HasKey(d, k) ==> e[|d|].key == k)
  {
    if d != [] {
      var n := |d| - 1;
      var rest := d[..n];
      HasKeySplit(d, k);
      if d[n].key != k && HasKey(rest, k) {
        PlusShape(rest, k, v);
      }
    }
  }

  lemma HasKeySplit(d: Dict, k: string)
    requires d != []
    ensures HasKey(d, k) <==> d[|d| - 1].key == k || HasKey(d[..|d| - 1], k)
  {
    var rest := d[..|d| - 1];
    if HasKey(rest, k) {
      var i :| 0 <= i < |rest| && rest[i].key == k;
      assert d[i].key == k;
    }
    if i :| 0 <= i < |d| && d[i].key == k {
      assert i < |rest| ==> rest[i].key == k;
    }
  }

  lemma PlusKeys(d: Dict, k: string, v: real)
    requires DistinctKeys(d)
    ensures DistinctKeys(Plus(d, k, v))
  {
    hide Plus;
    PlusShape(d, k, v);
  }

  lemma {:induction false} PlusPositive(d: Dict, k: string, v: real)
    requires AllPositive(d) && v > 0.0
    ensures AllPositive(Plus(d, k, v)) && Plus(d, k, v) != []
  {
    if d != [] {
      PlusPositive(d[..|d| - 1], k, v);
    }
  }
}
