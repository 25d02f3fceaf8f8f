/** What single fills realise, and when the average price moves. */
module RealizedCloses {
  import opened Reals
  import opened RealizedPnl
  import opened Wrappers

  // ----- against the position -----

  /** The fill closes part of the position, all of it, or more. */
  ghost predicate Against(b: Book, f: SignedFill) {
    (b.net > 0.0 && f.qty < 0.0) || (b.net < 0.0 && f.qty > 0.0)
  }

  /** A fill against the position that does not exceed it realises the price difference on exactly the quantity closed
      and leaves the average of what stays open. */
  lemma CloseRealizes(b: Book, f: SignedFill, mult: real)
    requires Against(b, f) && Abs(f.qty) <= Abs(b.net)
    ensures var a := Apply(b, f, mult);
            && a.net == b.net + f.qty
            && a.realized == b.realized + mult * ((f.price - b.avg) * -f.qty)
            && a.avg == if f.qty == -b.net then 0.0 else b.avg
  {
    hide Gain;
    GainIs(f.price, b.avg, f.qty, b.net, mult);
  }

  /** One that exceeds it realises on the whole position and opens the rest at its own price. */
  lemma FlipRealizes(b: Book, f: SignedFill, mult: real)
    requires Against(b, f) && Abs(f.qty) > Abs(b.net)
    ensures Apply(b, f, mult)
         == Book(b.net + f.qty, f.price, b.realized + mult * ((f.price - b.avg) * b.net))
  {
    hide Gain;
    GainIs(f.price, b.avg, f.qty, b.net, mult);
  }

  /** Any other fill realises nothing and adds its cost to the position's. */
  lemma OpenRealizesNothing(b: Book, f: SignedFill, mult: real)
    requires !Against(b, f)
    ensures var a := Apply(b, f, mult);
            && a.realized == b.realized && a.net == b.net + f.qty
            && (f.qty == 0.0 ==> a == b)
            && (f.qty != 0.0 ==> a.net != 0.0 && a.avg == (b.net * b.avg + f.qty * f.price) / a.net)
  {
    hide Gain;
    assert b.avg * b.net + f.price * f.qty == b.net * b.avg + f.qty * f.price;
  }

  /** While the position keeps its direction, a fill that moves the average is one in that direction, at another
      price. */
  lemma AverageMovesOnlyOnAdding(b: Book, f: SignedFill, mult: real)
    requires b.net != 0.0
    ensures var a := Apply(b, f, mult);
            ((a.net > 0.0) == (b.net > 0.0) && a.net != 0.0 && a.avg != b.avg ==>
               (f.qty > 0.0) == (b.net > 0.0) && f.qty != 0.0 && f.price != b.avg)
  {
    if Against(b, f) {
      if Abs(f.qty) <= Abs(b.net) {
        CloseRealizes(b, f, mult);
      }
    } else if f.qty != 0.0 && f.price == b.avg {
      BlendSame(b.net, f.qty, f.price);
    }
  }

  // ----- buying and then selling -----

  ghost predicate AllBuys(fills: seq<SignedFill>) {
    forall f <- fills :: f.qty > 0.0
  }

  lemma {:induction false} BuysCost(buys: seq<SignedFill>, mult: real)
    requires AllBuys(buys)
    ensures var b := Fold(buys, mult);
            && b.realized == 0.0 && b.net == SumQty(buys) && b.net * b.avg == Cost(buys)
            && if buys == [] then b.net == 0.0 else b.net > 0.0
  {
    hide Apply, Notional;
    if buys != [] {
      var rest, f := buys[..|buys| - 1], buys[|buys| - 1];
      assert f in buys && forall g <- rest :: g in buys;
      BuysCost(rest, mult);
      var b := Fold(rest, mult);
      OpenRealizesNothing(b, f, mult);
      QuotientTimes(b.net * b.avg + f.qty * f.price, b.net + f.qty);
      CostIs(f);
    }
  }

  lemma CostIs(f: SignedFill)
    ensures Notional(f) == f.qty * f.price
  {
  }

  /** Buys realise nothing; the average is what they cost over what they bought. */
  lemma BuysAverage(buys: seq<SignedFill>, mult: real)
    requires AllBuys(buys) && buys != []
    ensures SumQty(buys) > 0.0
    ensures Fold(buys, mult) == Book(SumQty(buys), Cost(buys) / SumQty(buys), 0.0)
  {
    hide Fold, SumQty, Cost;
    BuysCost(buys, mult);
    var avg := Fold(buys, mult).avg;
    QuotientTimes(Cost(buys), SumQty(buys));
    Cancel(SumQty(buys), avg, Cost(buys) / SumQty(buys));
  }

  /** Buys followed by one sale of at most what was bought: the sale realises its price over the average cost of the
      buys, on the quantity sold, and what stays keeps that average. */
  lemma BuysThenSale(buys: seq<SignedFill>, qty: real, price: real, mult: real)
    requires AllBuys(buys) && buys != [] && 0.0 < qty <= SumQty(buys)
    ensures SumQty(buys) > 0.0
    ensures var b := Fold(buys + [SignedFill(-qty, price)], mult);
            var avg := Cost(buys) / SumQty(buys);
            && b.realized == mult * ((price - avg) * qty) && b.net == SumQty(buys) - qty
            && (qty < SumQty(buys) ==> b.avg == avg)
  {
    hide Apply, Fold, SumQty, Cost;
    var sale := SignedFill(-qty, price);
    BuysAverage(buys, mult);
    FoldSnoc(buys, sale, mult);
    CloseRealizes(Fold(buys, mult), sale, mult);
  }

  // ----- the multiplier -----

  lemma Pull(m: real, x: real, y: real)
    ensures m * x + m * y == m * (x + y) && m * (1.0 * x) == m * x
  {
  }

  function Scaled(b: Book, mult: real): Book {
    b.(realized := mult * b.realized)
  }

  lemma ApplyScales(b: Book, f: SignedFill, mult: real)
    ensures Apply(Scaled(b, mult), f, mult) == Scaled(Apply(b, f, 1.0), mult)
  {
    hide Gain;
    var scaled := Scaled(b, mult);
    if Against(b, f) {
      var closed := if Abs(f.qty) <= Abs(b.net) then -f.qty else b.net;
      var gain := (f.price - b.avg) * closed;
      Pull(mult, b.realized, gain);
      if Abs(f.qty) <= Abs(b.net) {
        CloseRealizes(b, f, 1.0);
        CloseRealizes(scaled, f, mult);
      } else {
        FlipRealizes(b, f, 1.0);
        FlipRealizes(scaled, f, mult);
      }
    }
  }

  lemma FlatScales(mult: real)
    ensures Scaled(FLAT, mult) == FLAT
  {
  }

  /** The multiplier scales what is realised and touches nothing else. */
  lemma {:induction false} MultiplierScales(fills: seq<SignedFill>, mult: real)
    ensures Fold(fills, mult) == Scaled(Fold(fills, 1.0), mult)
  {
    hide Apply, Scaled;
    if fills == [] {
      FlatScales(mult);
    } else {
      var rest, f := fills[..|fills| - 1], fills[|fills| - 1];
      assert fills == rest + [f];
      MultiplierScales(rest, mult);
      FoldSnoc(rest, f, 1.0);
      FoldSnoc(rest, f, mult);
      ApplyScales(Fold(rest, 1.0), f, mult);
    }
  }
}
