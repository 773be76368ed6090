/** The derivation engine: the body of the calculator's effect, which turns the
    primary inputs into stamp duty, the two order totals, the return and the
    return percentage.  Prices are entered in pence; the monetary outputs are
    pounds printed with two decimals, held here as whole hundredths (pence). */
module Derivation {
  import opened Values

  /** The primary inputs the effect reads. */
  datatype Inputs = Inputs(
    buyPrice: Entry,
    buyShares: Entry,
    sellPrice: Entry,
    sellShares: Entry,
    incStampDuty: bool)

  /** The five derived cells.  Stamp duty and the two totals are always finite;
      the return and its percentage may be "NaN" or an infinity. */
  datatype Derived = Derived(
    stampDuty: int,
    buyTotal: int,
    sellTotal: int,
    returnValue: Fixed2,
    returnPercent: Fixed2)

  /** The cells' values when the page mounts (all `useState(0)`). */
  const InitialDerived := Derived(0, 0, 0, Hundredths(0), Hundredths(0))

  /** `toPounds`: pence to pounds, with the `false` sentinel for a price that is
      not positive written as 0 (that is what `false * shares` becomes). */
  function ToPounds(pence: Entry): (pounds: real)
    ensures pounds >= 0.0
    ensures pounds > 0.0 <==> Arith(pence) > 0.0
    ensures pounds > 0.0 ==> 100.0 * pounds == Arith(pence)
  {
    if Arith(pence) > 0.0 then Arith(pence) / 100.0 else 0.0
  }

  /** `getOrderSubTotal`: the value of an order in pence, before any fee: nothing
      when the price is unset or not positive, otherwise price times shares to
      within half a penny. */
  function OrderSubtotal(price: Entry, shares: Entry): (n: int)
    ensures Arith(price) <= 0.0 ==> n == 0
    ensures Arith(price) > 0.0 ==>
      -0.5 <= n as real - Arith(price) * Arith(shares) <= 0.5
  {
    var exact := ToPounds(price) * Arith(shares);
    assert Arith(price) > 0.0 ==> 100.0 * exact == Arith(price) * Arith(shares) by {
      if Arith(price) > 0.0 {
        assert 100.0 * exact == (100.0 * ToPounds(price)) * Arith(shares);
      }
    }
    FormatCurrency(exact)
  }

  /** A whole price in pence times a whole number of shares is exact. */
  lemma WholeOrderIsExact(pence: int, shares: int)
    requires pence > 0
    ensures OrderSubtotal(Num(pence as real), Num(shares as real)) == pence * shares
  {
  }

  /** The stamp duty in pence on the buy order: 0.5% of price times shares, to
      within half a penny.  It does not depend on whether it is included. */
  function StampDuty(buyPrice: Entry, buyShares: Entry): (n: int)
    ensures Arith(buyPrice) <= 0.0 ==> n == 0
    ensures Arith(buyPrice) > 0.0 ==>
      -0.5 <= n as real - 0.005 * (Arith(buyPrice) * Arith(buyShares)) <= 0.5
  {
    var exact := ToPounds(buyPrice) * Arith(buyShares) * 0.005;
    assert Arith(buyPrice) > 0.0 ==>
      100.0 * exact == 0.005 * (Arith(buyPrice) * Arith(buyShares)) by {
      if Arith(buyPrice) > 0.0 {
        assert 100.0 * exact == 0.005 * ((100.0 * ToPounds(buyPrice)) * Arith(buyShares));
      }
    }
    FormatCurrency(exact)
  }

  /** The buy total in pence from the buy subtotal and a stamp duty, both
      already two-decimal figures: adding duty and re-rounding adds it exactly. */
  function BuyTotal(subtotal: int, stampDuty: int, incStampDuty: bool): (n: int)
    ensures incStampDuty ==> n == subtotal + stampDuty
    ensures !incStampDuty ==> n == subtotal
  {
    if incStampDuty then
      FormatWhole(subtotal + stampDuty);
      assert subtotal as real / 100.0 + stampDuty as real / 100.0
          == (subtotal + stampDuty) as real / 100.0;
      FormatCurrency(subtotal as real / 100.0 + stampDuty as real / 100.0)
    else
      subtotal
  }

  /** `formatCurrency( sellTotal - ( buyTotal / ( buyShares / sellShares ) ) )`
      with IEEE division: a zero share count divides by zero.  `sellTotal` and
      `buyTotal` are in pence. */
  function ReturnFigure(sellTotal: int, buyTotal: int, buyShares: real, sellShares: real): (r: Fixed2)
    ensures buyShares == 0.0 ==> r == NonFinite
    ensures buyShares != 0.0 && sellShares == 0.0 ==> r == Hundredths(sellTotal)
    ensures buyShares != 0.0 && sellShares != 0.0 ==>
      r.Hundredths? &&
      -0.5 <= r.n as real - (sellTotal as real - buyTotal as real * (sellShares / buyShares)) <= 0.5
    ensures buyShares != 0.0 && sellShares == buyShares ==> r == Hundredths(sellTotal - buyTotal)
  {
    if sellShares == 0.0 then
      // buyShares / 0 is an infinity (NaN when buyShares is 0 too), and a
      // finite buyTotal divided by an infinity is 0
      if buyShares == 0.0 then NonFinite
      else
        FormatWhole(sellTotal);
        Hundredths(FormatCurrency(sellTotal as real / 100.0))
    else if buyShares == 0.0 then
      // buyShares / sellShares is 0, so buyTotal / 0 is an infinity or NaN
      NonFinite
    else
      var exact := sellTotal as real / 100.0 - (buyTotal as real / 100.0) / (buyShares / sellShares);
      ProportionalShare(sellTotal, buyTotal, buyShares, sellShares);
      if sellShares == buyShares then
        FormatWhole(sellTotal - buyTotal);
        Hundredths(FormatCurrency(exact))
      else
        Hundredths(FormatCurrency(exact))
  }

  /** Dividing by the ratio `buyShares / sellShares` scales by `sellShares / buyShares`. */
  lemma ProportionalShare(sellTotal: int, buyTotal: int, buyShares: real, sellShares: real)
    requires buyShares != 0.0 && sellShares != 0.0
    ensures 100.0 * (sellTotal as real / 100.0 - (buyTotal as real / 100.0) / (buyShares / sellShares))
         == sellTotal as real - buyTotal as real * (sellShares / buyShares)
    ensures sellShares == buyShares ==>
      sellTotal as real / 100.0 - (buyTotal as real / 100.0) / (buyShares / sellShares)
        == (sellTotal - buyTotal) as real / 100.0
  {
  }

  /** The return: 0 while no sell price has been entered; otherwise the sell
      total less the share of the buy total that the sold shares carry, which
      is non-finite with no buy shares, the whole sell total with no sell
      shares, and exactly sell total less buy total when all shares are sold. */
  function ReturnValue(sellPrice: Entry, sellTotal: int, buyTotal: int, buyShares: Entry, sellShares: Entry): (r: Fixed2)
    ensures sellPrice == Unset ==> r == Hundredths(0)
    ensures sellPrice != Unset && Arith(buyShares) == 0.0 ==> r == NonFinite
    ensures sellPrice != Unset && Arith(buyShares) != 0.0 && Arith(sellShares) == 0.0 ==>
      r == Hundredths(sellTotal)
    ensures sellPrice != Unset && Arith(buyShares) != 0.0 && Arith(sellShares) != 0.0 ==>
      r.Hundredths? &&
      -0.5 <= r.n as real
              - (sellTotal as real - buyTotal as real * (Arith(sellShares) / Arith(buyShares))) <= 0.5
    ensures sellPrice != Unset && Arith(buyShares) != 0.0 && Arith(sellShares) == Arith(buyShares) ==>
      r == Hundredths(sellTotal - buyTotal)
  {
    if sellPrice == Unset then Hundredths(0)
    else
      ReturnFigure(sellTotal, buyTotal, Arith(buyShares), Arith(sellShares))
  }

  /** The buy price the percentage measures against: with stamp duty it is
      raised by the 0.5% rate. */
  function Cost(buyPrice: real, incStampDuty: bool): real
  {
    if incStampDuty then buyPrice * 1.005 else buyPrice
  }

  /** `formatCurrency( ( ( sellPrice - cost ) / buyPrice ) * 100 )`, in
      hundredths of a percent, with IEEE division by a zero buy price. */
  function PercentFigure(sellPrice: real, buyPrice: real, incStampDuty: bool): (r: Fixed2)
    ensures buyPrice == 0.0 <==> r == NonFinite
    ensures buyPrice != 0.0 ==>
      -0.5 <= r.n as real - 10000.0 * ((sellPrice - Cost(buyPrice, incStampDuty)) / buyPrice) <= 0.5
    ensures buyPrice > 0.0 ==>
      (r.n > 0 ==> sellPrice > Cost(buyPrice, incStampDuty)) &&
      (r.n < 0 ==> sellPrice < Cost(buyPrice, incStampDuty)) &&
      (sellPrice >= Cost(buyPrice, incStampDuty) ==> r.n >= 0) &&
      (sellPrice <= Cost(buyPrice, incStampDuty) ==> r.n <= 0)
  {
    if buyPrice == 0.0 then
      // ( sellPrice - 0 ) / 0 is an infinity, or NaN when sellPrice is 0
      NonFinite
    else
      var gain := sellPrice - Cost(buyPrice, incStampDuty);
      QuotientSign(gain, buyPrice);
      Hundredths(FormatCurrency((gain / buyPrice) * 100.0))
  }

  /** Dividing by a positive number keeps the sign. */
  lemma QuotientSign(x: real, y: real)
    ensures y > 0.0 ==> (x > 0.0 <==> x / y > 0.0)
    ensures y > 0.0 ==> (x < 0.0 <==> x / y < 0.0)
  {
  }

  /** The return percentage: 0 while the buy total prints as `0.00`; otherwise
      100 × (sell price − cost) / buy price to the nearest hundredth, which is
      non-finite for a zero buy price and, for a positive one, takes its sign
      from sell price against cost. */
  function ReturnPercent(buyTotal: int, sellPrice: Entry, buyPrice: Entry, incStampDuty: bool): (r: Fixed2)
    ensures buyTotal == 0 ==> r == Hundredths(0)
    ensures buyTotal != 0 && Arith(buyPrice) == 0.0 ==> r == NonFinite
    ensures buyTotal != 0 && Arith(buyPrice) != 0.0 ==>
      r.Hundredths? &&
      -0.5 <= r.n as real
              - 10000.0 * ((Arith(sellPrice) - Cost(Arith(buyPrice), incStampDuty)) / Arith(buyPrice)) <= 0.5
    ensures buyTotal != 0 && Arith(buyPrice) > 0.0 ==>
      (r.n > 0 ==> Arith(sellPrice) > Cost(Arith(buyPrice), incStampDuty)) &&
      (r.n < 0 ==> Arith(sellPrice) < Cost(Arith(buyPrice), incStampDuty)) &&
      (Arith(sellPrice) >= Cost(Arith(buyPrice), incStampDuty) ==> r.n >= 0) &&
      (Arith(sellPrice) <= Cost(Arith(buyPrice), incStampDuty) ==> r.n <= 0)
  {
    if buyTotal == 0 then Hundredths(0)
    else PercentFigure(Arith(sellPrice), Arith(buyPrice), incStampDuty)
  }

  /** One run of the effect.  Every setter in it reads the cells as they were
      before the run: the buy total uses the previous stamp duty, the return
      the previous totals, and the percentage the previous buy total. */
  function Step(i: Inputs, prev: Derived): Derived
  {
    Derived(
      StampDuty(i.buyPrice, i.buyShares),
      BuyTotal(OrderSubtotal(i.buyPrice, i.buyShares), prev.stampDuty, i.incStampDuty),
      OrderSubtotal(i.sellPrice, i.sellShares),
      ReturnValue(i.sellPrice, prev.sellTotal, prev.buyTotal, i.buyShares, i.sellShares),
      ReturnPercent(prev.buyTotal, i.sellPrice, i.buyPrice, i.incStampDuty))
  }

  /** The settled figures for a snapshot of the inputs: each derived value
      computed from the settled values it depends on. */
  function Recompute(i: Inputs): Derived
  {
    var duty := StampDuty(i.buyPrice, i.buyShares);
    var buy := BuyTotal(OrderSubtotal(i.buyPrice, i.buyShares), duty, i.incStampDuty);
    var sell := OrderSubtotal(i.sellPrice, i.sellShares);
    Derived(
      duty,
      buy,
      sell,
      ReturnValue(i.sellPrice, sell, buy, i.buyShares, i.sellShares),
      ReturnPercent(buy, i.sellPrice, i.buyPrice, i.incStampDuty))
  }

  /** Because the effect depends on the cells it sets, React runs it again until
      nothing changes: whatever the cells held before, three runs reach the
      settled figures, and a further run changes nothing. */
  lemma EffectSettles(i: Inputs, prev: Derived)
    ensures Step(i, Step(i, Step(i, prev))) == Recompute(i)
    ensures Step(i, Recompute(i)) == Recompute(i)
  {
  }

  /** The effect re-runs while any cell in its dependency list changes, and
      that list leaves out the percentage: once a run leaves the other four
      derived cells as they were, it has produced the settled figures. */
  lemma SettledIsOnlyFixedPoint(i: Inputs, d: Derived)
    requires Step(i, d).(returnPercent := d.returnPercent) == d
    ensures Step(i, d) == Recompute(i)
    ensures d.(returnPercent := Recompute(i).returnPercent) == Recompute(i)
  {
  }

  /** The stamp duty is the same whether or not it is included, and including
      it raises the buy total by exactly that amount; nothing on the sell side
      changes. */
  lemma TaxInclusion(i: Inputs)
    ensures Recompute(i.(incStampDuty := true)).stampDuty == Recompute(i.(incStampDuty := false)).stampDuty
    ensures Recompute(i.(incStampDuty := true)).buyTotal
         == Recompute(i.(incStampDuty := false)).buyTotal + Recompute(i).stampDuty
    ensures Recompute(i.(incStampDuty := true)).sellTotal == Recompute(i.(incStampDuty := false)).sellTotal
  {
  }

  /** The settled return: 0 without a sell price; with one, the sell total less
      the share of the buy total that was sold, and exactly the sell total less
      the buy total when every share bought is sold. */
  lemma SettledReturn(i: Inputs)
    ensures i.sellPrice == Unset ==> Recompute(i).returnValue == Hundredths(0)
    ensures i.sellPrice != Unset && Arith(i.buyShares) == 0.0 ==> Recompute(i).returnValue == NonFinite
    ensures i.sellPrice != Unset && Arith(i.buyShares) != 0.0 && Arith(i.sellShares) == Arith(i.buyShares) ==>
      Recompute(i).returnValue == Hundredths(Recompute(i).sellTotal - Recompute(i).buyTotal)
    ensures i.sellPrice != Unset ==>
      Recompute(i).returnValue
        == ReturnFigure(Recompute(i).sellTotal, Recompute(i).buyTotal, Arith(i.buyShares), Arith(i.sellShares))
  {
  }

  /** Selling whole shares bought and sold at whole prices, with no stamp duty,
      returns exactly (sell price - buy price) times the shares, in pence. */
  lemma WholeRoundTrip(buyPence: int, sellPence: int, shares: int)
    requires buyPence > 0 && sellPence > 0 && shares != 0
    ensures Recompute(Inputs(Num(buyPence as real), Num(shares as real), Num(sellPence as real), Num(shares as real), false)).returnValue
         == Hundredths((sellPence - buyPence) * shares)
  {
    WholeOrderIsExact(buyPence, shares);
    WholeOrderIsExact(sellPence, shares);
    assert sellPence * shares - buyPence * shares == (sellPence - buyPence) * shares;
  }

  /** The settled percentage is always a number: it is 0 while the buy total is
      0, and otherwise the buy price is positive, so the percentage is above
      zero only when the sell price beats the (duty-raised) buy price, and
      below zero only when it falls short of it; with a non-zero buy total, a
      sell price at or above (at or below) that cost gives a percentage of at
      least (at most) 0. */
  lemma SettledPercent(i: Inputs)
    ensures Recompute(i).returnPercent.Hundredths?
    ensures Recompute(i).buyTotal == 0 ==> Recompute(i).returnPercent == Hundredths(0)
    ensures Recompute(i).buyTotal != 0 ==> Arith(i.buyPrice) > 0.0
    ensures Recompute(i).returnPercent.n > 0 ==>
      Arith(i.sellPrice) > Cost(Arith(i.buyPrice), i.incStampDuty)
    ensures Recompute(i).returnPercent.n < 0 ==>
      Arith(i.sellPrice) < Cost(Arith(i.buyPrice), i.incStampDuty)
    ensures Recompute(i).buyTotal != 0 && Arith(i.sellPrice) >= Cost(Arith(i.buyPrice), i.incStampDuty) ==>
      Recompute(i).returnPercent.n >= 0
    ensures Recompute(i).buyTotal != 0 && Arith(i.sellPrice) <= Cost(Arith(i.buyPrice), i.incStampDuty) ==>
      Recompute(i).returnPercent.n <= 0
  {
  }
}
