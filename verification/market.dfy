/**
 The market and trade inputs that a swaption decomposition reads: dates, the
 discount curve of the underlying swap, the day-count convention, and the two
 legs of the swap. Everything here is a plain immutable value; the discount
 curve and the day counter are total functions supplied by the caller, so that
 nothing about QuantLib's date arithmetic or curve interpolation is assumed.
 */
module Market {

  /** A calendar date, identified by its serial day number. */
  datatype Date = Date(serial: int)

  /** A day-count convention: the year fraction from the first date to the second. */
  type YearFraction = (Date, Date) -> real

  /** A discount curve: its reference date and the discount factor for any date. */
  datatype TermStructure = TermStructure(referenceDate: Date, discount: Date -> real)

  /** The direction of a vanilla swap, seen from the fixed leg. */
  datatype SwapType = Payer | Receiver

  /** A fixed-leg cashflow: payment date and amount, as already known at trade date. */
  datatype FixedCashflow = FixedCashflow(date: Date, amount: real)

  /** A floating-leg coupon with the accessors the decomposition uses. */
  datatype FloatingCoupon = FloatingCoupon(
    accrualStart: Date,
    accrualEnd: Date,
    accrualPeriod: real,
    rate: real,
    nominal: real)

  /** A vanilla fixed-versus-floating swap together with the curve it is discounted on. */
  datatype Swap = Swap(
    payerOrReceiver: SwapType,
    fixedLeg: seq<FixedCashflow>,
    floatingLeg: seq<FloatingCoupon>,
    discountCurve: TermStructure)
}
