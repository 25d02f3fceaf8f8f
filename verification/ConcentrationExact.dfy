/** The figures of the concentration report in terms of the holdings. */
module ConcentrationExact {
  import opened Concentration
  import opened ConcentrationBounds
  import opened Reals

  // ----- the sums of squares -----

  /** Each valued holding times the value of all of `whole` under its key. */
  function Weighed(items: seq<Item>, whole: seq<Item>, axis: Axis): real {
    if items == [] then 0.0
    else
      var it := items[|items| - 1];
      Weighed(items[..|items| - 1], whole, axis)
      + if it.eval > 0.0 then Product(it.eval, Held(whole, axis, KeyOf(axis, it))) else 0.0
  }

  function Product(x: real, y: real): real { x * y }

  lemma ProductAdds(x: real, y: real, z: real)
    ensures Product(x, y + z) == Product(x, y) + Product(x, z)
    ensures Product(x, y) == Product(y, x) && Product(x, 0.0) == 0.0
    ensures Square(x) == Product(x, x) && Cross(x, y) == 2.0 * Product(x, y)
  {
  }

  lemma HeldSnoc(items: seq<Item>, it: Item, axis: Axis, k: string)
    ensures Held(items + [it], axis, k)
         == Held(items, axis, k) + if it.eval > 0.0 && KeyOf(axis, it) == k then it.eval else 0.0
  {
    assert (items + [it])[..|items|] == items;
  }

  lemma {:induction false} WeighedGrows(items: seq<Item>, whole: seq<Item>, it: Item, axis: Axis)
    ensures Weighed(items, whole + [it], axis)
         == Weighed(items, whole, axis)
            + if it.eval > 0.0 then Product(it.eval, Held(items, axis, KeyOf(axis, it))) else 0.0
  {
    hide Product, Held, KeyOf;
    ProductAdds(it.eval, 0.0, 0.0);
    if items == [] {
      NothingHeld(axis, KeyOf(axis, it));
    } else {
      var rest, last := items[..|items| - 1], items[|items| - 1];
      assert items == rest + [last];
      WeighedGrows(rest, whole, it, axis);
      HeldSnoc(whole, it, axis, KeyOf(axis, last));
      HeldSnoc(rest, last, axis, KeyOf(axis, it));
      ProductAdds(last.eval, Held(whole, axis, KeyOf(axis, last)), it.eval);
      ProductAdds(it.eval, Held(rest, axis, KeyOf(axis, it)), last.eval);
      ProductAdds(last.eval, it.eval, 0.0);
    }
  }

  lemma NothingHeld(axis: Axis, k: string)
    ensures Held([], axis, k) == 0.0
  {
  }

  lemma {:induction false} SquaresAre(items: seq<Item>, axis: Axis)
    ensures SumSquares(Amounts(items, axis)) == Weighed(items, items, axis)
  {
    hide Product, Held, KeyOf, SumSquares, Plus, Square, Cross, At;
    if items == [] {
      NoSquares();
    } else {
      var rest, it := items[..|items| - 1], items[|items| - 1];
      var k := KeyOf(axis, it);
      assert items == rest + [it];
      SquaresAre(rest, axis);
      WeighedGrows(rest, rest, it, axis);
      HeldSnoc(rest, it, axis, k);
      if it.eval > 0.0 {
        AmountsAt(rest, axis, k);
        PlusSquares(Amounts(rest, axis), k, it.eval);
        ProductAdds(it.eval, Held(rest, axis, k), it.eval);
        ProductAdds(it.eval, it.eval, 0.0);
      }
    }
  }

  lemma NoSquares()
    ensures SumSquares([]) == 0.0
  {
  }

  // ----- keys and the largest weight -----

  /** The keys of the valued holdings. */
  ghost function KeysOf(items: seq<Item>, axis: Axis): set<string> {
    set it | it in items && it.eval > 0.0 :: KeyOf(axis, it)
  }

  lemma KeysSnoc(items: seq<Item>, it: Item, axis: Axis)
    ensures KeysOf(items + [it], axis) == if it.eval > 0.0 then KeysOf(items, axis) + {KeyOf(axis, it)}
                                          else KeysOf(items, axis)
  {
    hide KeyOf;
    var all := items + [it];
    assert it in all && forall x :: x in all <==> x in items || x == it;
  }

  lemma {:induction false} KeysAre(items: seq<Item>, axis: Axis)
    ensures var d := Amounts(items, axis);
            (forall k :: HasKey(d, k) <==> k in KeysOf(items, axis)) && |d| == |KeysOf(items, axis)|
  {
    hide Plus, HasKey, KeyOf, KeysOf;
    if items == [] {
      NoKeys(axis);
    } else {
      var rest, it := items[..|items| - 1], items[|items| - 1];
      assert items == rest + [it];
      KeysAre(rest, axis);
      KeysSnoc(rest, it, axis);
      if it.eval > 0.0 {
        PlusKeysAre(Amounts(rest, axis), KeyOf(axis, it), it.eval);
      }
    }
  }

  lemma NoKeys(axis: Axis)
    ensures (forall k :: !HasKey([], k)) && KeysOf([], axis) == {}
  {
  }

  lemma PlusKeysAre(d: Dict, k: string, v: real)
    ensures |Plus(d, k, v)| == |d| + (if HasKey(d, k) then 0 else 1)
    ensures forall key :: HasKey(Plus(d, k, v), key) <==> HasKey(d, key) || key == k
  {
    PlusShape(d, k, v);
    hide Plus;
    var e := Plus(d, k, v);
    forall key ensures HasKey(e, key) <==> HasKey(d, key) || key == k {
      if HasKey(d, key) {
        var i :| 0 <= i < |d| && d[i].key == key;
        assert e[i].key == key;
      }
    }
  }

  lemma {:induction false} MaxIs(d: Dict)
    requires d != []
    ensures forall i :: 0 <= i < |d| ==> d[i].amount <= Max(d)
    ensures exists i :: 0 <= i < |d| && d[i].amount == Max(d)
  {
    var rest := d[..|d| - 1];
    if rest != [] {
      MaxIs(rest);
      var i :| 0 <= i < |rest| && rest[i].amount == Max(rest);
      assert d[i].amount == Max(rest);
    }
  }

  lemma {:induction false} AtOfEntry(d: Dict, i: nat)
    requires DistinctKeys(d) && i < |d|
    ensures At(d, d[i].key) == d[i].amount
  {
    if i < |d| - 1 {
      AtOfEntry(d[..|d| - 1], i);
    }
  }

  lemma {:induction false} AtSomewhere(d: Dict, k: string)
    ensures At(d, k) == 0.0 || exists i :: 0 <= i < |d| && d[i].key == k && d[i].amount == At(d, k)
  {
    if d != [] && d[|d| - 1].key != k {
      var rest := d[..|d| - 1];
      AtSomewhere(rest, k);
      if i :| 0 <= i < |rest| && rest[i].key == k && rest[i].amount == At(rest, k) {
        assert d[i].key == k && d[i].amount == At(d, k);
      }
    }
  }

  /** No key has more than the largest amount, and some key has it. */
  lemma LargestAmount(d: Dict)
    requires d != [] && DistinctKeys(d) && AllPositive(d)
    ensures forall k :: At(d, k) <= Max(d)
    ensures exists k :: HasKey(d, k) && At(d, k) == Max(d)
  {
    hide Max, At, HasKey, DistinctKeys;
    MaxIs(d);
    var i :| 0 <= i < |d| && d[i].amount == Max(d);
    AtOfEntry(d, i);
    HasEntry(d, i);
    forall k ensures At(d, k) <= Max(d) {
      AtSomewhere(d, k);
    }
  }

  lemma {:induction false} MaxScales(d: Dict, t: real)
    requires d != [] && t > 0.0
    ensures Product(Max(Scaled(d, t)), t) == Max(d)
  {
    hide Product;
    var n := |d| - 1;
    var w := Scaled(d, t);
    ScaledBack(d[n].amount, t);
    assert w[..n] == Scaled(d[..n], t) && w[n].amount == d[n].amount / t;
    if n > 0 {
      MaxScales(d[..n], t);
      Ordered(Max(w[..n]), w[n].amount, t);
    }
  }

  lemma ScaledBack(x: real, t: real)
    requires t > 0.0
    ensures Product(x / t, t) == x
  {
    QuotientTimes(x, t);
  }

  lemma Ordered(x: real, y: real, t: real)
    requires t > 0.0
    ensures x < y <==> Product(x, t) < Product(y, t)
  {
  }

  /** The largest weight is that of some symbol held, and no symbol has more. */
  lemma LargestIs(items: seq<Item>)
    requires Valued(items)
    ensures forall k :: Held(items, BySymbol, k) <= ReportOf(items).top1 * Worth(items)
    ensures exists it :: it in items && it.eval > 0.0
                         && Held(items, BySymbol, it.symbol) == ReportOf(items).top1 * Worth(items)
  {
    hide Total, SumSquares, Amounts, Max, NormHhi, Held, Worth, At, HasKey, DistinctKeys;
    AmountsAre(items, BySymbol);
    WeightsAre(items, BySymbol);
    WorthPositive(items);
    var d := Amounts(items, BySymbol);
    MaxScales(d, Worth(items));
    LargestAmount(d);
    forall k ensures At(d, k) == Held(items, BySymbol, k) {
      AmountsAt(items, BySymbol, k);
    }
    KeysAre(items, BySymbol);
    var k :| HasKey(d, k) && At(d, k) == Max(d);
    var it :| it in items && it.eval > 0.0 && KeyOf(BySymbol, it) == k;
    assert Held(items, BySymbol, it.symbol) == Max(d);
  }

  lemma HasEntry(d: Dict, i: nat)
    requires i < |d|
    ensures HasKey(d, d[i].key)
  {
  }

  // ----- the report -----

  /** A market or currency that is missing or empty counts as "?". */
  lemma KeysNamed(it: Item)
    ensures KeyOf(BySymbol, it) == it.symbol
    ensures KeyOf(ByMarket, it) == if it.market.None? || it.market.value == "" then "?" else it.market.value
    ensures KeyOf(ByCurrency, it) == if it.currency.None? || it.currency.value == "" then "?" else it.currency.value
  {
  }

  /** For every book with something in it: both indices are the sums of the squared weights of their keys, the symbols
      are counted once each, the effective number is the inverse of the index, and the normalised index its share of the
      way from 1/n to 1. */
  lemma FiguresAre(items: seq<Item>)
    requires Valued(items)
    ensures var r := ReportOf(items);
            var t := Worth(items);
            && t > 0.0
            && r.hhi * (t * t) == Weighed(items, items, BySymbol)
            && r.currencyHhi * (t * t) == Weighed(items, items, ByCurrency)
            && r.n == |set it | it in items && it.eval > 0.0 :: it.symbol|
            && r.effN * r.hhi == 1.0
            && if r.n > 1 then r.normHhi * (1.0 - 1.0 / r.n as real) == r.hhi - 1.0 / r.n as real else r.normHhi == 0.0
  {
    hide Total, SumSquares, Amounts, Max, Held, Worth, Weighed;
    AmountsAre(items, BySymbol);
    WorthPositive(items);
    BookBounds(items);
    var t := Worth(items);
    IndexIs(items, BySymbol);
    IndexIs(items, ByCurrency);
    KeysAre(items, BySymbol);
    assert KeysOf(items, BySymbol) == (set it | it in items && it.eval > 0.0 :: it.symbol);
    var r := ReportOf(items);
    Positive(1.0 / r.n as real, r.n);
    QuotientTimes(1.0, r.hhi);
    if r.n > 1 {
      QuotientTimes(r.hhi - 1.0 / r.n as real, 1.0 - 1.0 / r.n as real);
    }
  }

  lemma Positive(x: real, n: nat)
    requires n >= 1 && x == 1.0 / n as real
    ensures x > 0.0 && (n > 1 ==> x < 1.0)
  {
    assert x * n as real == 1.0;
  }

  lemma IndexIs(items: seq<Item>, axis: Axis)
    requires Worth(items) > 0.0
    ensures SumSquares(Weights(Amounts(items, axis), Worth(items))) * (Worth(items) * Worth(items))
         == Weighed(items, items, axis)
  {
    hide SumSquares, Amounts, Worth, Weighed;
    var d, t := Amounts(items, axis), Worth(items);
    SquaresAre(items, axis);
    ScaledSums(d, t);
    QuotientTimes(SumSquares(d), Square(t));
  }
}
