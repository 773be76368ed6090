/** The form's placeholder trade, 500 shares bought at 150p and sold at 200p,
    worked through the settled figures (all in hundredths). */
module Scenarios {
  import opened Values
  import opened Derivation

  function Placeholder(incStampDuty: bool, sellShares: real): Inputs
  {
    Inputs(Num(150.0), Num(500.0), Num(200.0), Num(sellShares), incStampDuty)
  }

  /** Without stamp duty: bought for 750.00, sold for 1000.00, a return of
      250.00, or 33.33%.  The 3.75 duty is still worked out. */
  lemma UntaxedPlaceholder()
    ensures Recompute(Placeholder(false, 500.0)) == Derived(375, 75000, 100000, Hundredths(25000), Hundredths(3333))
  {
  }

  /** With stamp duty: 3.75 of duty makes the buy total 753.75, the return
      246.25, and the percentage 32.83. */
  lemma TaxedPlaceholder()
    ensures Recompute(Placeholder(true, 500.0)) == Derived(375, 75375, 100000, Hundredths(24625), Hundredths(3283))
  {
  }

  /** Selling half the shares: 500.00 from the sale less half of the 750.00
      buy total is a return of 125.00. */
  lemma HalfSoldPlaceholder()
    ensures Recompute(Placeholder(false, 250.0)).sellTotal == 50000
    ensures Recompute(Placeholder(false, 250.0)).returnValue == Hundredths(12500)
  {
  }

  /** With no buy price the buy total is 0, so the percentage is 0 rather
      than a division by zero. */
  lemma NoBuyPrice(buyShares: Entry, sellPrice: Entry, sellShares: Entry, incStampDuty: bool)
    ensures Recompute(Inputs(Unset, buyShares, sellPrice, sellShares, incStampDuty)).buyTotal == 0
    ensures Recompute(Inputs(Unset, buyShares, sellPrice, sellShares, incStampDuty)).returnPercent == Hundredths(0)
  {
  }
}
