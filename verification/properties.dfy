/**
 What the bond-option decomposition promises: the layout of the payment-time
 and cashflow vectors in terms of the swap's own coupons, that the vectors
 carry both legs losslessly, that the two notional exchanges cancel, how the
 implied floating amount behaves, and which inputs the result depends on.
 */
module BondOptionProperties {
  import opened Market
  import opened Swaptions

  /** Sum of a sequence of reals, from the front. */
  function Sum(xs: seq<real>): real
  {
    if |xs| == 0 then 0.0 else xs[0] + Sum(xs[1..])
  }

  /** Sum of the amounts of a sequence of leg entries, defined on the legs
      themselves rather than on the cashflow vector, so that
      `SumOfSignedAmounts` relates the vector's sum to the legs' totals. */
  function SumOfAmounts(entries: seq<LegEntry>): real
  {
    if |entries| == 0 then 0.0 else entries[0].amount + SumOfAmounts(entries[1..])
  }

  /** The floating leg read back out of the two vectors: slots 1 to m, with
      the cashflow sign undone. */
  function FloatLegOf(payTimes: seq<real>, caschflows: seq<real>, m: nat): (leg: seq<LegEntry>)
    requires m + 1 <= |payTimes| && m + 1 <= |caschflows|
    ensures |leg| == m
    ensures forall i :: 0 <= i < m ==> leg[i] == LegEntry(payTimes[1 + i], -caschflows[1 + i])
  {
    seq(m, i requires 0 <= i < m => LegEntry(payTimes[1 + i], -caschflows[1 + i]))
  }

  /** The fixed leg read back out of the two vectors: the n slots after the
      m floating ones. */
  function FixedLegOf(payTimes: seq<real>, caschflows: seq<real>, m: nat, n: nat): (leg: seq<LegEntry>)
    requires m + n + 1 <= |payTimes| && m + n + 1 <= |caschflows|
    ensures |leg| == n
    ensures forall j :: 0 <= j < n ==> leg[j] == LegEntry(payTimes[1 + m + j], caschflows[1 + m + j])
  {
    seq(n, j requires 0 <= j < n => LegEntry(payTimes[1 + m + j], caschflows[1 + m + j]))
  }

  /** Round trip: both legs are recovered, in order and unchanged, from the
      index-aligned vectors, so the bond-option inputs lose nothing of the
      swap's leg schedule. */
  lemma VectorsCarryBothLegs(floatLeg: seq<LegEntry>, fixedLeg: seq<LegEntry>, finalTime: real, nominal: real)
    requires |floatLeg| > 0
    ensures FloatLegOf(PayTimes(floatLeg, fixedLeg, finalTime), Cashflows(nominal, floatLeg, fixedLeg), |floatLeg|)
         == floatLeg
    ensures FixedLegOf(PayTimes(floatLeg, fixedLeg, finalTime), Cashflows(nominal, floatLeg, fixedLeg),
                       |floatLeg|, |fixedLeg|)
         == fixedLeg
  {
  }

  lemma {:induction false} SumConcat(a: seq<real>, b: seq<real>)
    ensures Sum(a + b) == Sum(a) + Sum(b)
    decreases |a|
  {
    if |a| > 0 {
      assert (a + b)[1..] == a[1..] + b;
      SumConcat(a[1..], b);
    } else {
      assert a + b == b;
    }
  }

  lemma {:induction false} SumOfSignedAmounts(sign: real, entries: seq<LegEntry>)
    ensures Sum(SignedAmounts(sign, entries)) == sign * SumOfAmounts(entries)
    decreases |entries|
  {
    if |entries| > 0 {
      var xs, tail := SignedAmounts(sign, entries), SignedAmounts(sign, entries[1..]);
      assert forall k :: 0 <= k < |tail| ==> xs[1..][k] == tail[k];
      assert xs[1..] == tail;
      SumOfSignedAmounts(sign, entries[1..]);
    }
  }

  /** The notional exchanges cancel: the cashflow vector nets to the fixed
      amounts received less the implied floating amounts paid, whatever the
      nominal. */
  lemma NotionalExchangesCancel(nominal: real, floatLeg: seq<LegEntry>, fixedLeg: seq<LegEntry>)
    ensures Sum(Cashflows(nominal, floatLeg, fixedLeg)) == SumOfAmounts(fixedLeg) - SumOfAmounts(floatLeg)
  {
    var neg := SignedAmounts(-1.0, floatLeg);
    var pos := SignedAmounts(1.0, fixedLeg);
    assert Cashflows(nominal, floatLeg, fixedLeg) == [-nominal] + (neg + (pos + [nominal]));
    SumConcat([-nominal], neg + (pos + [nominal]));
    SumConcat(neg, pos + [nominal]);
    SumConcat(pos, [nominal]);
    SumOfSignedAmounts(-1.0, floatLeg);
    SumOfSignedAmounts(1.0, fixedLeg);
  }

  /** The time axis of a successful decomposition in terms of the swap's own
      dates: the first accrual start twice, every accrual start, every fixed
      payment date, and the last accrual end. */
  lemma TimeAxisLayout(yf: YearFraction, s: Swaption, d: Details)
    requires BondOptionDetails(yf, s) == Ok(d)
    ensures |d.payTimes| == |s.underlyingSwap.floatingLeg| + |s.underlyingSwap.fixedLeg| + 2
    ensures d.payTimes[0] == d.payTimes[1]
         == yf(s.underlyingSwap.discountCurve.referenceDate, s.underlyingSwap.floatingLeg[0].accrualStart)
    ensures forall i :: 0 <= i < |s.underlyingSwap.floatingLeg| ==>
      d.payTimes[1 + i]
      == yf(s.underlyingSwap.discountCurve.referenceDate, s.underlyingSwap.floatingLeg[i].accrualStart)
    ensures forall j :: 0 <= j < |s.underlyingSwap.fixedLeg| ==>
      d.payTimes[1 + |s.underlyingSwap.floatingLeg| + j]
      == yf(s.underlyingSwap.discountCurve.referenceDate, s.underlyingSwap.fixedLeg[j].date)
    ensures d.payTimes[|d.payTimes| - 1]
         == yf(s.underlyingSwap.discountCurve.referenceDate,
               s.underlyingSwap.floatingLeg[|s.underlyingSwap.floatingLeg| - 1].accrualEnd)
  {
  }

  /** The cashflow vector of a successful decomposition in terms of the
      swap's own coupons: minus the first nominal, the negated implied
      floating amounts, the fixed amounts unchanged, plus the first nominal;
      the two exchanges have equal size and opposite sign. */
  lemma CashflowLayout(yf: YearFraction, s: Swaption, d: Details)
    requires BondOptionDetails(yf, s) == Ok(d)
    ensures |d.caschflows| == |d.payTimes| == |s.underlyingSwap.floatingLeg| + |s.underlyingSwap.fixedLeg| + 2
    ensures d.caschflows[0] == -s.underlyingSwap.floatingLeg[0].nominal
    ensures d.caschflows[|d.caschflows| - 1] == s.underlyingSwap.floatingLeg[0].nominal == -d.caschflows[0]
    ensures forall i :: 0 <= i < |s.underlyingSwap.floatingLeg| ==>
      d.caschflows[1 + i] == -ImpliedAmount(s.underlyingSwap.discountCurve.discount, s.underlyingSwap.floatingLeg[i])
    ensures forall j :: 0 <= j < |s.underlyingSwap.fixedLeg| ==>
      d.caschflows[1 + |s.underlyingSwap.floatingLeg| + j] == s.underlyingSwap.fixedLeg[j].amount
  {
  }

  /** A coupon whose rate is the curve's forward rate over its accrual period
      has no implied cashflow, and (for a non-zero nominal) only such a
      coupon. */
  lemma ImpliedAmountVanishesAtForward(df: Date -> real, c: FloatingCoupon)
    requires df(c.accrualStart) != 0.0
    requires c.nominal != 0.0
    ensures ImpliedAmount(df, c) == 0.0
        <==> (1.0 + c.accrualPeriod * c.rate) * df(c.accrualEnd) == df(c.accrualStart)
  {
  }

  /** With a positive nominal, a positive accrual period and discount factors
      of the same sign, a higher fixing rate gives a strictly higher implied
      amount. */
  lemma ImpliedAmountIncreasesWithRate(df: Date -> real, c: FloatingCoupon, higher: real)
    requires df(c.accrualStart) * df(c.accrualEnd) > 0.0
    requires c.nominal > 0.0 && c.accrualPeriod > 0.0
    requires c.rate < higher
    ensures ImpliedAmount(df, c) < ImpliedAmount(df, c.(rate := higher))
  {
    var s, e := df(c.accrualStart), df(c.accrualEnd);
    var ratio := e / s;
    assert ratio > 0.0 by {
      assert ratio * s == e;
    }
    var lo := 1.0 + c.accrualPeriod * c.rate;
    var hi := 1.0 + c.accrualPeriod * higher;
    assert lo < hi;
    assert lo * ratio < hi * ratio;
    assert ImpliedAmount(df, c) == (lo * ratio - 1.0) * c.nominal;
    assert ImpliedAmount(df, c.(rate := higher)) == (hi * ratio - 1.0) * c.nominal;
  }

  /** A worked replication: half-year accrual at 3% on 1,000,000 with
      discount factors 0.99 at start and 0.975 at end gives exactly
      -12500/33 (about -378.79). */
  lemma ImpliedAmountWorkedExample(df: Date -> real, start: Date, end: Date)
    requires df(start) == 0.99 && df(end) == 0.975
    ensures ImpliedAmount(df, FloatingCoupon(start, end, 0.5, 0.03, 1000000.0)) == -12500.0 / 33.0
  {
  }

  /** A payer and a receiver swaption on the same legs decompose identically
      except for the call/put flag, which flips sign. */
  lemma PayerReceiverParity(yf: YearFraction, s: Swaption)
    requires Decomposable(s)
    ensures var payer := s.(underlyingSwap := s.underlyingSwap.(payerOrReceiver := Payer));
      var receiver := s.(underlyingSwap := s.underlyingSwap.(payerOrReceiver := Receiver));
      && Decompose(yf, receiver).callOrPut == 1.0
      && Decompose(yf, payer) == Decompose(yf, receiver).(callOrPut := -1.0)
  {
  }

  /** The exercise date is not validated: moving it never changes whether
      the decomposition succeeds or which error it fails with, and on success
      changes only the expiry time. */
  lemma ExerciseDateOnlyMovesExpiry(yf: YearFraction, s: Swaption, exercise: Date)
    ensures var moved := s.(exerciseDate := exercise);
      var r, r' := BondOptionDetails(yf, s), BondOptionDetails(yf, moved);
      && r.Ok? == r'.Ok?
      && (r.Err? ==> r' == r)
      && (r.Ok? ==> r'.details == r.details.(expiryTime := yf(s.underlyingSwap.discountCurve.referenceDate, exercise)))
  {
  }

  /** An empty fixed leg is accepted: the vectors then hold just the two
      exchanges around the floating entries. */
  lemma EmptyFixedLegAccepted(yf: YearFraction, s: Swaption)
    requires Decomposable(s)
    requires |s.underlyingSwap.fixedLeg| == 0
    ensures var r := BondOptionDetails(yf, s);
      && r.Ok?
      && r.details.fixedLeg == []
      && |r.details.payTimes| == |r.details.caschflows| == |s.underlyingSwap.floatingLeg| + 2
  {
  }
}
