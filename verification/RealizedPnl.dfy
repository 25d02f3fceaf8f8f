/** Average-cost realised profit and loss (server/app/portfolio/realized.py).
    Quantities and prices are exact reals; a buy is a positive quantity, a sell a negative one. */
module RealizedPnl {
  import opened Permutations
  import opened Reals
  import opened Wrappers

  datatype SignedFill = SignedFill(qty: real, price: real)

  /** The loop state: signed net position, average entry price, realised total. */
  datatype Book = Book(net: real, avg: real, realized: real)

  const FLAT := Book(0.0, 0.0, 0.0)

  /** `multiplier or 1.0`: a missing or zero multiplier counts as one. */
  function EffectiveMultiplier(multiplier: Option<real>): real {
    if multiplier.None? || multiplier.value == 0.0 then 1.0 else multiplier.value
  }

  /** Weighted entry price after `q` more at price `p`. */
  function Blend(net: real, avg: real, q: real, p: real): real
    requires net + q != 0.0
  {
    (avg * net + p * q) / (net + q)
  }

  /** What closing `closing` of a position of direction `sign` entered at `avg` brings in. */
  function Gain(p: real, avg: real, closing: real, sign: real, mult: real): real {
    (p - avg) * closing * sign * mult
  }

  function Sign(x: real): real { if x > 0.0 then 1.0 else -1.0 }

  predicate SameDirection(net: real, q: real) { net == 0.0 || (net > 0.0) == (q > 0.0) }

  /** One fill against the book. */
  function Apply(b: Book, f: SignedFill, mult: real): Book {
    if f.qty == 0.0 then b
    else if SameDirection(b.net, f.qty) then
      b.(net := b.net + f.qty, avg := Blend(b.net, b.avg, f.qty, f.price))
    else
      var net := b.net + f.qty;
      Book(net,
           if net == 0.0 then 0.0 else if (net > 0.0) != (b.net > 0.0) then f.price else b.avg,
           b.realized + Gain(f.price, b.avg, Min(Abs(f.qty), Abs(b.net)), Sign(b.net), mult))
  }

  function FoldFrom(b: Book, fills: seq<SignedFill>, mult: real): Book {
    if fills == [] then b
    else Apply(FoldFrom(b, fills[..|fills| - 1], mult), fills[|fills| - 1], mult)
  }

  function Fold(fills: seq<SignedFill>, mult: real): Book {
    FoldFrom(FLAT, fills, mult)
  }

  function SumQty(fills: seq<SignedFill>): real {
    if fills == [] then 0.0 else SumQty(fills[..|fills| - 1]) + fills[|fills| - 1].qty
  }

  /** Cash paid out for the fills: purchases cost, sales bring in. */
  function Cost(fills: seq<SignedFill>): real {
    if fills == [] then 0.0 else Cost(fills[..|fills| - 1]) + Notional(fills[|fills| - 1])
  }

  function Notional(f: SignedFill): real { f.qty * f.price }

  /** One turn of the loop, on the loop's own variables. */
  method MatchFill(net: real, avg: real, realized: real, q: real, p: real, mult: real)
    returns (net': real, avg': real, realized': real)
    ensures Book(net', avg', realized') == Apply(Book(net, avg, realized), SignedFill(q, p), mult)
  {
    net', avg', realized' := net, avg, realized;
    if q == 0.0 {
      return;
    }
    var sameDir := net == 0.0 || (net > 0.0) == (q > 0.0);
    if sameDir {
      net' := net + q;
      avg' := if net' != 0.0 then (avg * net + p * q) / net' else 0.0;
      assert avg' == Blend(net, avg, q, p);
      hide Blend;
      return;
    }
    var closing := Min(Abs(q), Abs(net));
    realized' := realized + (p - avg) * closing * (if net > 0.0 then 1.0 else -1.0) * mult;
    assert realized' == realized + Gain(p, avg, closing, Sign(net), mult);
    hide Gain;
    net' := net + q;
    if net' == 0.0 {
      avg' := 0.0;
    } else if (net' > 0.0) != (net > 0.0) {
      avg' := p;
    }
  }

  method RealizedPnlCcy(fills: seq<SignedFill>, multiplier: Option<real>) returns (realized: real)
    ensures realized == Fold(fills, if multiplier == Some(0.0) then 1.0 else multiplier.GetOr(1.0)).realized
  {
    hide Apply;
    var mult := EffectiveMultiplier(multiplier);
    var net, avg := 0.0, 0.0;
    realized := 0.0;
    for i := 0 to |fills|
      invariant Book(net, avg, realized) == Fold(fills[..i], mult)
    {
      assert fills[..i + 1][..i] == fills[..i];
      net, avg, realized := MatchFill(net, avg, realized, fills[i].qty, fills[i].price, mult);
    }
    assert fills[..|fills|] == fills;
  }

  // ----- one fill -----

  /** Blending moves the fill's cost into the book. */
  lemma BlendCost(net: real, avg: real, q: real, p: real)
    requires net + q != 0.0
    ensures (net + q) * Blend(net, avg, q, p) == net * avg + q * p
  {
    QuotientTimes(avg * net + p * q, net + q);
  }

  /** Closing at `p` moves out what the closed part cost and realises the difference. */
  lemma GainIs(p: real, avg: real, q: real, net: real, mult: real)
    requires !SameDirection(net, q) && q != 0.0
    ensures var closed := if Abs(q) < Abs(net) then -q else net;
            Gain(p, avg, Min(Abs(q), Abs(net)), Sign(net), mult) == mult * ((p - avg) * closed)
  {
    var closed := if Abs(q) < Abs(net) then -q else net;
    var closing := Min(Abs(q), Abs(net));
    assert closing * Sign(net) == closed;
    assert (p - avg) * closing * Sign(net) == (p - avg) * (closing * Sign(net));
  }

  /** What one fill does to the book's cost: money is either moved into the book or realised, never lost. */
  lemma ApplyConserves(b: Book, f: SignedFill, mult: real)
    ensures var a := Apply(b, f, mult);
            && a.net == b.net + f.qty
            && a.realized - mult * (a.net * a.avg) == b.realized - mult * (b.net * b.avg) - mult * (f.qty * f.price)
  {
    hide Blend, Gain;
    if f.qty == 0.0 {
    } else if SameDirection(b.net, f.qty) {
      BlendCost(b.net, b.avg, f.qty, f.price);
    } else {
      GainIs(f.price, b.avg, f.qty, b.net, mult);
    }
  }

  // ----- whole fill lists -----

  /** The book conserves money through every partial close, exact close and flip. */
  lemma {:induction false} FoldConserves(fills: seq<SignedFill>, mult: real)
    ensures var b := Fold(fills, mult);
            b.net == SumQty(fills) && b.realized == mult * (b.net * b.avg - Cost(fills))
  {
    hide Apply;
    if fills == [] {
    } else {
      var n := |fills| - 1;
      FoldConserves(fills[..n], mult);
      ApplyConserves(Fold(fills[..n], mult), fills[n], mult);
    }
  }

  /** Realised plus marked-to-market open profit is the value held minus the cash paid, at every mark. */
  lemma MarkToMarket(fills: seq<SignedFill>, mult: real, mark: real)
    ensures var b := Fold(fills, mult);
            b.realized + mult * b.net * (mark - b.avg) == mult * (b.net * mark - Cost(fills))
  {
    FoldConserves(fills, mult);
    var b := Fold(fills, mult);
    assert mult * b.net * (mark - b.avg) == mult * (b.net * mark) - mult * (b.net * b.avg);
  }

  /** A flat book carries no average price, and what it realised is exactly the cash flow. */
  lemma {:induction false} FlatMeansCashFlow(fills: seq<SignedFill>, mult: real)
    ensures SumQty(fills) == 0.0 ==> Fold(fills, mult) == Book(0.0, 0.0, -(mult * Cost(fills)))
  {
    hide Apply, Notional;
    FoldConserves(fills, mult);
    NoPositionNoAverage(fills, mult);
  }

  lemma {:induction false} NoPositionNoAverage(fills: seq<SignedFill>, mult: real)
    ensures var b := Fold(fills, mult); b.net == 0.0 ==> b.avg == 0.0
  {
    if fills != [] {
      NoPositionNoAverage(fills[..|fills| - 1], mult);
    }
  }

  // ----- reordering -----

  lemma {:induction false} SumsOfInsert(pre: seq<SignedFill>, f: SignedFill, post: seq<SignedFill>)
    ensures SumQty(pre + [f] + post) == SumQty(pre + post) + f.qty
    ensures Cost(pre + [f] + post) == Cost(pre + post) + Notional(f)
  {
    hide Notional;
    var whole := pre + [f] + post;
    if post == [] {
      assert whole[..|whole| - 1] == pre && pre + post == pre;
    } else {
      var n := |post| - 1;
      SumsOfInsert(pre, f, post[..n]);
      assert whole[..|whole| - 1] == pre + [f] + post[..n];
      assert (pre + post)[..|pre + post| - 1] == pre + post[..n];
    }
  }

  lemma {:induction false} SumsIgnoreOrder(a: seq<SignedFill>, b: seq<SignedFill>)
    requires multiset(a) == multiset(b)
    ensures SumQty(a) == SumQty(b) && Cost(a) == Cost(b)
    decreases |a|
  {
    hide Notional;
    if a == [] {
      assert |multiset(b)| == 0;
    } else {
      var n := |a| - 1;
      var k := TakeOut(a, b);
      SumsIgnoreOrder(a[..n], b[..k] + b[k + 1..]);
      SumsOfInsert(b[..k], b[k], b[k + 1..]);
      assert b == b[..k] + [b[k]] + b[k + 1..];
    }
  }

  /** Any reordering of fills that ends flat realises the same amount. */
  lemma FlatRealizedIgnoresOrder(a: seq<SignedFill>, b: seq<SignedFill>, mult: real)
    requires multiset(a) == multiset(b)
    requires SumQty(a) == 0.0
    ensures Fold(a, mult) == Fold(b, mult)
  {
    SumsIgnoreOrder(a, b);
    FlatMeansCashFlow(a, mult);
    FlatMeansCashFlow(b, mult);
  }

  /** Two orders of the same fills realise the same if and only if nothing is left open, or at the same average. */
  lemma RealizedSameIff(a: seq<SignedFill>, b: seq<SignedFill>, mult: real)
    requires multiset(a) == multiset(b)
    ensures Fold(a, mult).net == Fold(b, mult).net
    ensures Fold(a, mult).realized == Fold(b, mult).realized
       <==> mult * (Fold(a, mult).net * (Fold(a, mult).avg - Fold(b, mult).avg)) == 0.0
  {
    hide Fold, SumQty, Cost;
    SumsIgnoreOrder(a, b);
    FoldConserves(a, mult);
    FoldConserves(b, mult);
    var net, x, y, cost := Fold(a, mult).net, Fold(a, mult).avg, Fold(b, mult).avg, Cost(a);
    assert net * (x - y) == (net * x - cost) - (net * y - cost);
    assert mult * (net * (x - y)) == mult * (net * x - cost) - mult * (net * y - cost);
  }

  /** Flatness is needed: with a position left open the order of the fills changes what is realised. */
  lemma OpenRealizedDependsOnOrder()
    ensures var a := [SignedFill(1.0, 10.0), SignedFill(1.0, 20.0), SignedFill(-1.0, 15.0)];
            var b := [SignedFill(1.0, 10.0), SignedFill(-1.0, 15.0), SignedFill(1.0, 20.0)];
            multiset(a) == multiset(b) && Fold(a, 1.0).realized == 0.0 && Fold(b, 1.0).realized == 5.0
  {
    var f, g, h := SignedFill(1.0, 10.0), SignedFill(1.0, 20.0), SignedFill(-1.0, 15.0);
    var one, two, shut := Book(1.0, 10.0, 0.0), Book(2.0, 15.0, 0.0), Book(0.0, 0.0, 5.0);
    assert Apply(FLAT, f, 1.0) == one;
    assert Apply(one, g, 1.0) == two && Apply(two, h, 1.0).realized == 0.0;
    assert Apply(one, h, 1.0) == shut && Apply(shut, g, 1.0).realized == 5.0;
    hide Apply;
    ThreeFills(f, g, h, 1.0);
    ThreeFills(f, h, g, 1.0);
  }

  lemma ThreeFills(f: SignedFill, g: SignedFill, h: SignedFill, mult: real)
    ensures Fold([f, g, h], mult) == Apply(Apply(Apply(FLAT, f, mult), g, mult), h, mult)
  {
    hide Apply;
    assert [f, g, h][..2] == [f, g] && [f, g][..1] == [f] && [f][..0] == [];
    assert Fold([f], mult) == Apply(FLAT, f, mult) by {
      assert FoldFrom(FLAT, [f][..0], mult) == FLAT;
    }
    assert Fold([f, g], mult) == Apply(Fold([f], mult), g, mult);
  }

  // ----- concatenation -----

  lemma {:induction false} FoldAppend(b: Book, xs: seq<SignedFill>, ys: seq<SignedFill>, mult: real)
    ensures FoldFrom(b, xs + ys, mult) == FoldFrom(FoldFrom(b, xs, mult), ys, mult)
  {
    if ys == [] {
      assert xs + ys == xs;
    } else {
      var n := |ys| - 1;
      FoldAppend(b, xs, ys[..n], mult);
      assert (xs + ys)[..|xs + ys| - 1] == xs + ys[..n];
    }
  }

  lemma ApplyShift(b: Book, f: SignedFill, r: real, mult: real)
    ensures var a := Apply(b, f, mult);
            Apply(b.(realized := r + b.realized), f, mult) == a.(realized := r + a.realized)
  {
    hide Blend, Gain;
  }

  lemma {:induction false} FoldShift(r: real, ys: seq<SignedFill>, mult: real)
    ensures var b := Fold(ys, mult); FoldFrom(Book(0.0, 0.0, r), ys, mult) == b.(realized := r + b.realized)
  {
    hide Apply;
    if ys != [] {
      var n := |ys| - 1;
      FoldShift(r, ys[..n], mult);
      ApplyShift(Fold(ys[..n], mult), ys[n], r, mult);
    }
  }

  /** Realised amounts add up across a point where the position is flat. */
  lemma AdditiveAtFlat(xs: seq<SignedFill>, ys: seq<SignedFill>, mult: real)
    requires SumQty(xs) == 0.0
    ensures Fold(xs + ys, mult).realized == Fold(xs, mult).realized + Fold(ys, mult).realized
  {
    FlatMeansCashFlow(xs, mult);
    FoldAppend(FLAT, xs, ys, mult);
    FoldShift(Fold(xs, mult).realized, ys, mult);
  }

  // ----- negation -----

  function Negated(fills: seq<SignedFill>): (r: seq<SignedFill>)
    ensures |r| == |fills|
    ensures forall i :: 0 <= i < |fills| ==> r[i] == SignedFill(-fills[i].qty, fills[i].price)
  {
    if fills == [] then []
    else Negated(fills[..|fills| - 1]) + [SignedFill(-fills[|fills| - 1].qty, fills[|fills| - 1].price)]
  }

  lemma BlendNegated(net: real, avg: real, q: real, p: real)
    requires net + q != 0.0
    ensures Blend(-net, avg, -q, p) == Blend(net, avg, q, p)
  {
    BlendCost(net, avg, q, p);
    BlendCost(-net, avg, -q, p);
    hide Blend;
    Cancel(net + q, Blend(-net, avg, -q, p), Blend(net, avg, q, p));
  }

  lemma Cancel(y: real, a: real, b: real)
    requires y != 0.0 && y * a == y * b
    ensures a == b
  {
    assert y * (a - b) == 0.0;
  }

  lemma GainNegated(p: real, avg: real, closing: real, sign: real, mult: real)
    ensures Gain(p, avg, closing, -sign, mult) == -Gain(p, avg, closing, sign, mult)
  {
    var g := (p - avg) * closing;
    assert g * -sign == -(g * sign);
  }

  lemma ApplyNegated(b: Book, f: SignedFill, mult: real)
    ensures var a := Apply(b, f, mult);
            Apply(Book(-b.net, b.avg, -b.realized), SignedFill(-f.qty, f.price), mult)
            == Book(-a.net, a.avg, -a.realized)
  {
    hide Blend, Gain;
    if f.qty == 0.0 {
    } else if SameDirection(b.net, f.qty) {
      BlendNegated(b.net, b.avg, f.qty, f.price);
    } else {
      GainNegated(f.price, b.avg, Min(Abs(f.qty), Abs(b.net)), Sign(b.net), mult);
    }
  }

  lemma FoldSnoc(fills: seq<SignedFill>, f: SignedFill, mult: real)
    ensures Fold(fills + [f], mult) == Apply(Fold(fills, mult), f, mult)
  {
    hide Apply;
    assert (fills + [f])[..|fills|] == fills;
  }

  lemma NegatedSnoc(fills: seq<SignedFill>, f: SignedFill)
    ensures Negated(fills + [f]) == Negated(fills) + [SignedFill(-f.qty, f.price)]
  {
    assert (fills + [f])[..|fills|] == fills;
  }

  /** Mirroring every trade mirrors the position and negates what was realised. */
  lemma {:induction false} NegationMirrors(fills: seq<SignedFill>, mult: real)
    ensures var b := Fold(fills, mult); Fold(Negated(fills), mult) == Book(-b.net, b.avg, -b.realized)
  {
    hide Apply, Fold, Negated;
    if fills == [] {
      NothingToMirror(mult);
    } else {
      var rest, f := fills[..|fills| - 1], fills[|fills| - 1];
      assert fills == rest + [f];
      NegationMirrors(rest, mult);
      ApplyNegated(Fold(rest, mult), f, mult);
      FoldSnoc(rest, f, mult);
      NegatedSnoc(rest, f);
      FoldSnoc(Negated(rest), SignedFill(-f.qty, f.price), mult);
    }
  }

  lemma NothingToMirror(mult: real)
    ensures Fold([], mult) == FLAT && Negated([]) == []
  {
  }

  // ----- splitting -----

  /** Splitting one fill in two parts of the same sign and price leaves the whole book unchanged,
      also when the fill closes the position or flips it. */
  lemma SplitInTwo(b: Book, q1: real, q2: real, p: real, mult: real)
    requires SameSign(q1, q2)
    requires b.net == 0.0 ==> b.avg == 0.0
    ensures Apply(Apply(b, SignedFill(q1, p), mult), SignedFill(q2, p), mult) == Apply(b, SignedFill(q1 + q2, p), mult)
  {
    hide Apply;
    if SameDirection(b.net, q1) {
      SplitOpening(b, q1, q2, p, mult);
    } else if Abs(q1) < Abs(b.net) {
      SplitPartialClose(b, q1, q2, p, mult);
    } else {
      SplitAfterClose(b, q1, q2, p, mult);
    }
  }

  predicate SameSign(x: real, y: real) {
    (x > 0.0 && y > 0.0) || (x < 0.0 && y < 0.0)
  }

  lemma BlendTwice(net: real, avg: real, q1: real, q2: real, p: real)
    requires net + q1 != 0.0 && net + q1 + q2 != 0.0
    ensures net + q1 + q2 == net + (q1 + q2)
    ensures Blend(net + q1, Blend(net, avg, q1, p), q2, p) == Blend(net, avg, q1 + q2, p)
  {
    var first := Blend(net, avg, q1, p);
    BlendCost(net, avg, q1, p);
    BlendCost(net + q1, first, q2, p);
    BlendCost(net, avg, q1 + q2, p);
    hide Blend;
    assert (net + q1 + q2) * Blend(net + q1, first, q2, p) == net * avg + q1 * p + q2 * p;
    Cancel(net + q1 + q2, Blend(net + q1, first, q2, p), Blend(net, avg, q1 + q2, p));
  }

  /** Entering at the book's own average price leaves the average alone. */
  lemma BlendSame(net: real, q: real, p: real)
    requires net + q != 0.0
    ensures Blend(net, p, q, p) == p
    ensures net == 0.0 ==> forall avg :: Blend(net, avg, q, p) == p
  {
    BlendCost(net, p, q, p);
    Cancel(net + q, Blend(net, p, q, p), p);
  }

  lemma SplitOpening(b: Book, q1: real, q2: real, p: real, mult: real)
    requires SameSign(q1, q2)
    requires SameDirection(b.net, q1)
    ensures Apply(Apply(b, SignedFill(q1, p), mult), SignedFill(q2, p), mult) == Apply(b, SignedFill(q1 + q2, p), mult)
  {
    hide Blend, Gain;
    BlendTwice(b.net, b.avg, q1, q2, p);
  }

  lemma SplitAfterClose(b: Book, q1: real, q2: real, p: real, mult: real)
    requires SameSign(q1, q2)
    requires !SameDirection(b.net, q1) && Abs(q1) >= Abs(b.net)
    ensures Apply(Apply(b, SignedFill(q1, p), mult), SignedFill(q2, p), mult) == Apply(b, SignedFill(q1 + q2, p), mult)
  {
    BlendSame(b.net + q1, q2, p);
    hide Blend, Gain;
  }

  lemma SplitPartialClose(b: Book, q1: real, q2: real, p: real, mult: real)
    requires SameSign(q1, q2)
    requires !SameDirection(b.net, q1) && Abs(q1) < Abs(b.net)
    ensures Apply(Apply(b, SignedFill(q1, p), mult), SignedFill(q2, p), mult) == Apply(b, SignedFill(q1 + q2, p), mult)
  {
    hide Blend, Gain;
    var c2 := Min(Abs(q2), Abs(b.net + q1));
    assert Min(Abs(q1 + q2), Abs(b.net)) == Abs(q1) + c2;
    GainsAdd(p, b.avg, Abs(q1), c2, Sign(b.net), mult);
  }

  lemma GainsAdd(p: real, avg: real, x: real, y: real, sign: real, mult: real)
    ensures Gain(p, avg, x + y, sign, mult) == Gain(p, avg, x, sign, mult) + Gain(p, avg, y, sign, mult)
  {
    var d := p - avg;
    assert d * (x + y) == d * x + d * y;
    assert d * (x + y) * sign == d * x * sign + d * y * sign;
  }

  function AtPrice(qs: seq<real>, p: real): (r: seq<SignedFill>)
    ensures |r| == |qs|
    ensures forall i :: 0 <= i < |qs| ==> r[i] == SignedFill(qs[i], p)
  {
    if qs == [] then [] else AtPrice(qs[..|qs| - 1], p) + [SignedFill(qs[|qs| - 1], p)]
  }

  function Total(qs: seq<real>): real {
    if qs == [] then 0.0 else Total(qs[..|qs| - 1]) + qs[|qs| - 1]
  }

  lemma {:induction false} SameSignTotal(qs: seq<real>)
    requires qs != []
    requires (forall i :: 0 <= i < |qs| ==> qs[i] > 0.0) || (forall i :: 0 <= i < |qs| ==> qs[i] < 0.0)
    ensures (Total(qs) > 0.0) == (qs[0] > 0.0) && Total(qs) != 0.0
  {
    if |qs| == 1 {
      assert qs[..0] == [];
    } else {
      SameSignTotal(qs[..|qs| - 1]);
    }
  }

  lemma {:induction false} SplitFrom(b: Book, qs: seq<real>, p: real, mult: real)
    requires qs != []
    requires (forall i :: 0 <= i < |qs| ==> qs[i] > 0.0) || (forall i :: 0 <= i < |qs| ==> qs[i] < 0.0)
    requires b.net == 0.0 ==> b.avg == 0.0
    ensures FoldFrom(b, AtPrice(qs, p), mult) == Apply(b, SignedFill(Total(qs), p), mult)
  {
    hide Apply;
    var n := |qs| - 1;
    assert AtPrice(qs, p)[..n] == AtPrice(qs[..n], p);
    if n == 0 {
      assert qs[..0] == [];
    } else {
      SplitFrom(b, qs[..n], p, mult);
      SameSignTotal(qs[..n]);
      SplitInTwo(b, Total(qs[..n]), qs[n], p, mult);
    }
  }

  /** Anywhere in a fill list, one fill may be replaced by any number of same-sign parts at its price. */
  lemma SplittingChangesNothing(pre: seq<SignedFill>, parts: seq<real>, p: real, post: seq<SignedFill>, mult: real)
    requires parts != []
    requires (forall i :: 0 <= i < |parts| ==> parts[i] > 0.0) || (forall i :: 0 <= i < |parts| ==> parts[i] < 0.0)
    ensures Fold(pre + AtPrice(parts, p) + post, mult) == Fold(pre + [SignedFill(Total(parts), p)] + post, mult)
  {
    hide Apply;
    var whole := SignedFill(Total(parts), p);
    NoPositionNoAverage(pre, mult);
    SplitFrom(Fold(pre, mult), parts, p, mult);
    FoldAppend(FLAT, pre, AtPrice(parts, p), mult);
    FoldAppend(FLAT, pre + AtPrice(parts, p), post, mult);
    assert (pre + [whole])[..|pre|] == pre;
    FoldAppend(FLAT, pre + [whole], post, mult);
  }
}
