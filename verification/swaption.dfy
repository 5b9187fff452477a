/**
 A European swaption re-expressed as a bond option: the flat inputs (call/put
 flag, strike, expiry time, payment times and signed cashflows) that a
 Hull-White analytic bond-option formula consumes. Floating coupons are not
 known at valuation time, so each is replaced by the cashflow that replicates
 it from the discount factors over its accrual period; a notional exchange at
 both ends turns the floating leg into a financing leg and the fixed leg into
 the coupons of a bond.
 */
module Swaptions {
  import opened Market

  /** The swaption: an option to enter the underlying swap on a single exercise date. */
  datatype Swaption = Swaption(underlyingSwap: Swap, exerciseDate: Date, normalVolatility: real)

  /** One leg entry of the decomposition: a time in years from the curve's reference date and an amount. */
  datatype LegEntry = LegEntry(time: real, amount: real)

  /** The inputs to the bond-option formula, field for field as the source names them. */
  datatype Details = Details(
    callOrPut: real,
    strike: real,
    expiryTime: real,
    fixedLeg: seq<LegEntry>,
    floatLeg: seq<LegEntry>,
    payTimes: seq<real>,
    caschflows: seq<real>)

  /** Why a decomposition aborts: a division by a zero discount factor at the
      start of the given floating coupon, or a floating leg with no coupon to
      take the notional exchanges from. */
  datatype DecompositionError = ZeroDiscountFactor(coupon: nat) | EmptyFloatingLeg

  datatype Outcome = Ok(details: Details) | Err(error: DecompositionError)

  /** +1 for a receiver swaption (a call on the bond), -1 for a payer swaption (a put). */
  function CallOrPut(t: SwapType): (flag: real)
    ensures flag == 1.0 <==> t == Receiver
    ensures flag == -1.0 <==> t == Payer
  {
    match t
    case Receiver => 1.0
    case Payer => -1.0
  }

  /** The fixed leg on the year-fraction time axis, amounts unchanged. */
  function FixedLegEntries(yf: YearFraction, refDate: Date, leg: seq<FixedCashflow>): (entries: seq<LegEntry>)
    ensures |entries| == |leg|
    ensures forall j :: 0 <= j < |leg| ==>
      entries[j] == LegEntry(yf(refDate, leg[j].date), leg[j].amount)
  {
    if |leg| == 0 then []
    else [LegEntry(yf(refDate, leg[0].date), leg[0].amount)] + FixedLegEntries(yf, refDate, leg[1..])
  }

  /** The cashflow at accrual start that replicates a floating coupon:
      receiving nominal plus this amount at accrual start is worth, on the
      curve, exactly what the coupon's nominal with accrued interest is worth
      at accrual end. */
  function ImpliedAmount(df: Date -> real, c: FloatingCoupon): (amount: real)
    requires df(c.accrualStart) != 0.0
    ensures df(c.accrualStart) * (c.nominal + amount)
         == (1.0 + c.accrualPeriod * c.rate) * c.nominal * df(c.accrualEnd)
  {
    ((1.0 + c.accrualPeriod * c.rate) * df(c.accrualEnd) / df(c.accrualStart) - 1.0) * c.nominal
  }

  /** The index of the first coupon whose accrual-start discount factor is
      zero, or the number of coupons when there is none. */
  function FirstZeroDiscount(df: Date -> real, coupons: seq<FloatingCoupon>): (k: nat)
    ensures k <= |coupons|
    ensures forall j :: 0 <= j < k ==> df(coupons[j].accrualStart) != 0.0
    ensures k < |coupons| ==> df(coupons[k].accrualStart) == 0.0
  {
    if |coupons| == 0 || df(coupons[0].accrualStart) == 0.0 then 0
    else 1 + FirstZeroDiscount(df, coupons[1..])
  }

  /** The floating leg on the year-fraction time axis: each coupon at its
      accrual start, carrying its implied amount. */
  function FloatLegEntries(yf: YearFraction, refDate: Date, df: Date -> real, coupons: seq<FloatingCoupon>)
    : (entries: seq<LegEntry>)
    requires forall i :: 0 <= i < |coupons| ==> df(coupons[i].accrualStart) != 0.0
    ensures |entries| == |coupons|
    ensures forall i :: 0 <= i < |coupons| ==>
      entries[i] == LegEntry(yf(refDate, coupons[i].accrualStart), ImpliedAmount(df, coupons[i]))
  {
    if |coupons| == 0 then []
    else
      [LegEntry(yf(refDate, coupons[0].accrualStart), ImpliedAmount(df, coupons[0]))]
      + FloatLegEntries(yf, refDate, df, coupons[1..])
  }

  /** The times of a sequence of leg entries, in order. */
  function Times(entries: seq<LegEntry>): (ts: seq<real>)
    ensures |ts| == |entries|
    ensures forall i :: 0 <= i < |entries| ==> ts[i] == entries[i].time
  {
    seq(|entries|, i requires 0 <= i < |entries| => entries[i].time)
  }

  /** The amounts of a sequence of leg entries, in order, each multiplied by `sign`. */
  function SignedAmounts(sign: real, entries: seq<LegEntry>): (xs: seq<real>)
    ensures |xs| == |entries|
    ensures forall i :: 0 <= i < |entries| ==> xs[i] == sign * entries[i].amount
  {
    seq(|entries|, i requires 0 <= i < |entries| => sign * entries[i].amount)
  }

  /** The payment-time vector: the first floating time twice (once for the
      initial notional exchange, once for the first coupon), every floating
      time, every fixed time, and the final accrual-end time. */
  function PayTimes(floatLeg: seq<LegEntry>, fixedLeg: seq<LegEntry>, finalTime: real): (ts: seq<real>)
    requires |floatLeg| > 0
    ensures |ts| == |floatLeg| + |fixedLeg| + 2
    ensures ts[0] == floatLeg[0].time
    ensures forall i :: 0 <= i < |floatLeg| ==> ts[1 + i] == floatLeg[i].time
    ensures forall j :: 0 <= j < |fixedLeg| ==> ts[1 + |floatLeg| + j] == fixedLeg[j].time
    ensures ts[|ts| - 1] == finalTime
  {
    [floatLeg[0].time] + Times(floatLeg) + Times(fixedLeg) + [finalTime]
  }

  /** The cashflow vector, index-aligned with `PayTimes`: minus the nominal,
      the negated floating amounts, the fixed amounts, plus the nominal. */
  function Cashflows(nominal: real, floatLeg: seq<LegEntry>, fixedLeg: seq<LegEntry>): (xs: seq<real>)
    ensures |xs| == |floatLeg| + |fixedLeg| + 2
    ensures xs[0] == -nominal
    ensures forall i :: 0 <= i < |floatLeg| ==> xs[1 + i] == -floatLeg[i].amount
    ensures forall j :: 0 <= j < |fixedLeg| ==> xs[1 + |floatLeg| + j] == fixedLeg[j].amount
    ensures xs[|xs| - 1] == nominal
  {
    [-nominal] + SignedAmounts(-1.0, floatLeg) + SignedAmounts(1.0, fixedLeg) + [nominal]
  }

  /** True when the swap's floating leg can be decomposed: it has a coupon,
      and no accrual-start discount factor is zero. */
  predicate Decomposable(s: Swaption)
  {
    var swap := s.underlyingSwap;
    && |swap.floatingLeg| > 0
    && forall i :: 0 <= i < |swap.floatingLeg| ==>
         swap.discountCurve.discount(swap.floatingLeg[i].accrualStart) != 0.0
  }

  /** The decomposition proper, for a decomposable swaption. The payment-time
      and cashflow vectors are index-aligned: an initial exchange of minus the
      first coupon's nominal at the first accrual start, the negated implied
      floating amounts at their accrual starts, the fixed amounts at their
      payment dates, and a final exchange of plus the first coupon's nominal
      at the last accrual end. */
  function Decompose(yf: YearFraction, s: Swaption): (d: Details)
    requires Decomposable(s)
    ensures d.callOrPut == 1.0 <==> s.underlyingSwap.payerOrReceiver == Receiver
    ensures d.callOrPut == -1.0 <==> s.underlyingSwap.payerOrReceiver == Payer
    ensures d.strike == 0.0
    ensures d.expiryTime == yf(s.underlyingSwap.discountCurve.referenceDate, s.exerciseDate)
    ensures |d.fixedLeg| == |s.underlyingSwap.fixedLeg|
    ensures forall j :: 0 <= j < |d.fixedLeg| ==>
      d.fixedLeg[j] == LegEntry(yf(s.underlyingSwap.discountCurve.referenceDate, s.underlyingSwap.fixedLeg[j].date),
                                s.underlyingSwap.fixedLeg[j].amount)
    ensures |d.floatLeg| == |s.underlyingSwap.floatingLeg|
    ensures forall i :: 0 <= i < |d.floatLeg| ==>
      d.floatLeg[i] == LegEntry(yf(s.underlyingSwap.discountCurve.referenceDate, s.underlyingSwap.floatingLeg[i].accrualStart),
                                ImpliedAmount(s.underlyingSwap.discountCurve.discount, s.underlyingSwap.floatingLeg[i]))
    ensures d.payTimes == PayTimes(d.floatLeg, d.fixedLeg,
      yf(s.underlyingSwap.discountCurve.referenceDate,
         s.underlyingSwap.floatingLeg[|s.underlyingSwap.floatingLeg| - 1].accrualEnd))
    ensures d.caschflows == Cashflows(s.underlyingSwap.floatingLeg[0].nominal, d.floatLeg, d.fixedLeg)
  {
    var swap := s.underlyingSwap;
    var refDate := swap.discountCurve.referenceDate;
    var fixedLeg := FixedLegEntries(yf, refDate, swap.fixedLeg);
    var floatLeg := FloatLegEntries(yf, refDate, swap.discountCurve.discount, swap.floatingLeg);
    var first := swap.floatingLeg[0];
    var last := swap.floatingLeg[|swap.floatingLeg| - 1];
    Details(
      CallOrPut(swap.payerOrReceiver),
      0.0,
      yf(refDate, s.exerciseDate),
      fixedLeg,
      floatLeg,
      PayTimes(floatLeg, fixedLeg, yf(refDate, last.accrualEnd)),
      Cashflows(first.nominal, floatLeg, fixedLeg))
  }

  /** The decomposition as the source performs it, aborting where it raises:
      the floating leg is built first, so a zero discount factor at some
      accrual start is reported (for the first such coupon) before an empty
      floating leg can be noticed; the two never occur together. */
  function BondOptionDetails(yf: YearFraction, s: Swaption): (r: Outcome)
    ensures r.Ok? <==> Decomposable(s)
    ensures r.Ok? ==> r.details == Decompose(yf, s)
    ensures r == Err(EmptyFloatingLeg) <==> |s.underlyingSwap.floatingLeg| == 0
    ensures r.Err? && r.error.ZeroDiscountFactor? ==>
      var k := r.error.coupon;
      var swap := s.underlyingSwap;
      && k < |swap.floatingLeg|
      && swap.discountCurve.discount(swap.floatingLeg[k].accrualStart) == 0.0
      && forall j :: 0 <= j < k ==> swap.discountCurve.discount(swap.floatingLeg[j].accrualStart) != 0.0
  {
    var swap := s.underlyingSwap;
    var k := FirstZeroDiscount(swap.discountCurve.discount, swap.floatingLeg);
    if k < |swap.floatingLeg| then Err(ZeroDiscountFactor(k))
    else if |swap.floatingLeg| == 0 then Err(EmptyFloatingLeg)
    else Ok(Decompose(yf, s))
  }
}
