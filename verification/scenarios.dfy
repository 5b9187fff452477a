/**
 Concrete decompositions: a forward-starting receiver swaption on a flat
 curve, and the two ways a decomposition aborts.
 */
module Scenarios {
  import opened Market
  import opened Swaptions
  import opened BondOptionProperties

  /** Actual/365 Fixed on serial day numbers. */
  function Actual365(from: Date, to: Date): real
  {
    (to.serial - from.serial) as real / 365.0
  }

  /** A flat 2% simply-compounded curve with reference date at serial day 0. */
  function FlatCurve(): TermStructure
  {
    TermStructure(Date(0), (d: Date) => if d.serial >= 0 then 365.0 / (365.0 + 0.02 * d.serial as real) else 1.0)
  }

  /** Semi-annual period boundaries from year 1 to year 5. */
  function HalfYear(k: int): Date
  {
    Date(365 + 365 * k / 2)
  }

  /** A receiver swap on 1,000,000 starting in one year and running four
      years: eight semi-annual floating coupons and four annual fixed
      coupons at 3%. */
  function ForwardReceiverSwap(): Swap
  {
    Swap(
      Receiver,
      seq(4, j => FixedCashflow(Date(365 * (j + 2)), 30000.0)),
      seq(8, i => FloatingCoupon(HalfYear(i), HalfYear(i + 1), 0.5, 0.02, 1000000.0)),
      FlatCurve())
  }

  /** The flat curve never discounts a date on or after its reference date to zero. */
  lemma FlatCurveNonZero(d: Date)
    requires d.serial >= 0
    ensures FlatCurve().discount(d) > 0.0
  {
  }

  /** The one-year receiver swaption on that swap can be decomposed. */
  lemma ForwardReceiverDecomposable(s: Swaption)
    requires s == Swaption(ForwardReceiverSwap(), Date(365), 0.01)
    ensures BondOptionDetails(Actual365, s).Ok?
  {
    var swap := s.underlyingSwap;
    forall i | 0 <= i < |swap.floatingLeg|
      ensures swap.discountCurve.discount(swap.floatingLeg[i].accrualStart) != 0.0
    {
      FlatCurveNonZero(swap.floatingLeg[i].accrualStart);
    }
  }

  /** The one-year receiver swaption on that swap decomposes into a call with
      expiry one year, fourteen payment times ending at year five, and the
      notional exchanged at both ends. */
  lemma ForwardReceiverDecomposition(s: Swaption)
    requires s == Swaption(ForwardReceiverSwap(), Date(365), 0.01)
    ensures var r := BondOptionDetails(Actual365, s);
      && r.Ok?
      && r.details.callOrPut == 1.0
      && r.details.strike == 0.0
      && r.details.expiryTime == 1.0
      && |r.details.payTimes| == |r.details.caschflows| == 8 + 4 + 2
      && r.details.payTimes[0] == r.details.payTimes[1] == 1.0
      && r.details.payTimes[13] == 5.0
      && r.details.caschflows[0] == -1000000.0
      && r.details.caschflows[13] == 1000000.0
      && r.details.caschflows[9] == 30000.0
  {
    ForwardReceiverDecomposable(s);
    var d := BondOptionDetails(Actual365, s).details;
    TimeAxisLayout(Actual365, s, d);
    CashflowLayout(Actual365, s, d);
    assert s.underlyingSwap.floatingLeg[0].accrualStart == Date(365);
    assert s.underlyingSwap.floatingLeg[7].accrualEnd == Date(1825);
    assert s.underlyingSwap.fixedLeg[0].amount == 30000.0;
  }

  /** A swap without floating coupons cannot be decomposed. */
  lemma NoFloatingCoupons()
    ensures BondOptionDetails(Actual365,
      Swaption(Swap(Payer, [FixedCashflow(Date(730), 30000.0)], [], FlatCurve()), Date(365), 0.01))
      == Err(EmptyFloatingLeg)
  {
  }

  /** A curve that discounts the second coupon's accrual start to zero aborts
      the decomposition at that coupon. */
  lemma ZeroDiscountAtSecondCoupon()
    ensures var curve := TermStructure(Date(0), (d: Date) => if d.serial == 500 then 0.0 else 1.0);
      var coupons := [FloatingCoupon(Date(400), Date(500), 0.25, 0.02, 100.0),
                      FloatingCoupon(Date(500), Date(600), 0.25, 0.02, 100.0),
                      FloatingCoupon(Date(600), Date(700), 0.25, 0.02, 100.0)];
      BondOptionDetails(Actual365, Swaption(Swap(Payer, [], coupons, curve), Date(365), 0.01))
      == Err(ZeroDiscountFactor(1))
  {
  }
}
