# Swaption to bond-option decomposition

A Dafny model of `Swaption.bondOptionDetails` from the QuantLib Python
wrapper. The operation re-expresses a European swaption on a vanilla swap as
an option on a bond, so that a Hull-White analytic bond-option formula can
price it. It produces:

- a call/put flag: +1 for a receiver swaption, -1 for a payer;
- a strike of zero;
- the expiry time, as a year fraction from the curve's reference date;
- the fixed leg as (time, amount) pairs;
- the floating leg as (time, implied amount) pairs, where the implied amount
  replicates the coupon from discount factors:
  `((1 + τ·r)·P(end)/P(start) − 1)·N`;
- two index-aligned vectors, `payTimes` and `caschflows`. They hold an
  exchange of −N₀ at the first accrual start, the negated implied floating
  amounts, the fixed amounts, and an exchange of +N₀ at the last accrual end.
  N₀ is the nominal of the first floating coupon.

Layout:

- `market.dfy` (module `Market`): dates, the discount curve, the day-count
  convention, the two legs and the swap, all as plain values. The discount
  curve (`discount: Date -> real`) and the year fraction
  (`YearFraction = (Date, Date) -> real`, Actual/365 Fixed in the source) are
  supplied as total functions.
- `swaption.dfy` (module `Swaptions`): the swaption, the result record
  `Details`, the helpers that build each part, `Decompose` for the
  decomposable case, and `BondOptionDetails`, which also models the two
  places where the source raises.
- `properties.dfy` (module `BondOptionProperties`): lemmas relating the
  result to the swap's own coupons and dates. They cover the vector layout,
  recovering both legs from the vectors, cancellation of the notional
  exchanges, behaviour of the implied amount, payer/receiver parity, and
  independence from the exercise date.
- `scenarios.dfy` (module `Scenarios`): concrete decompositions. One is a
  one-year receiver swaption on a four-year forward swap on a flat curve.
  The others are the two error cases.

The source raises in two places. `BondOptionDetails` returns `Err` there:

- `ZeroDiscountFactor(k)`: Python raises `ZeroDivisionError` when the
  discount factor at some accrual start is zero. The floating leg is built
  before anything is indexed, so the first such coupon `k` is reported.
- `EmptyFloatingLeg`: `floatLeg[0]` raises `IndexError` when the floating leg
  is empty.

The two cannot happen together, because an empty leg performs no division.

The code validates neither the exercise date nor the fixed leg:

- It does not check that the exercise date comes before the leg dates.
  `ExerciseDateOnlyMovesExpiry` proves that the exercise date affects only
  `expiryTime`, never whether or how the decomposition fails.
- An empty fixed leg is accepted (`EmptyFixedLegAccepted`).

For the replication formula, τ = 0.5, r = 3%, N = 1,000,000,
P(start) = 0.99 and P(end) = 0.975 give exactly −12500/33, about −378.79
(`ImpliedAmountWorkedExample`).

## Model

| member | source | states |
|---|---|---|
| `Swaptions.CallOrPut` | QuantLibWrapper/Swaption.py:28 | The flag is 1.0 exactly when the swap is a receiver and -1.0 exactly when it is a payer |
| `Swaptions.FixedLegEntries` | QuantLibWrapper/Swaption.py:32-34 | One entry per fixed cashflow, in leg order; entry j is the year fraction to the payment date with the amount passed through unchanged |
| `Swaptions.ImpliedAmount` | QuantLibWrapper/Swaption.py:35-39 | Replication: nominal plus the implied amount, discounted from accrual start, is worth the nominal with accrued interest discounted from accrual end. Defined only when the start discount factor is non-zero |
| `Swaptions.FirstZeroDiscount` | QuantLibWrapper/Swaption.py:35-41 | The index at which the floating-leg comprehension first divides by a zero discount factor: every earlier coupon has a non-zero start discount factor, and this one has zero (or no coupon does) |
| `Swaptions.FloatLegEntries` | QuantLibWrapper/Swaption.py:35-42 | One entry per floating coupon, in leg order; entry i is the year fraction to the accrual start with that coupon's implied amount |
| `Swaptions.PayTimes` | QuantLibWrapper/Swaption.py:43-47 | Length is floating + fixed + 2; slot 0 repeats the first floating time; then the floating times, then the fixed times, in order; the last slot is the final time |
| `Swaptions.Cashflows` | QuantLibWrapper/Swaption.py:48-51 | Length is floating + fixed + 2, aligned with `PayTimes`: minus the nominal, the negated floating amounts, the fixed amounts, plus the nominal |
| `Swaptions.Decompose` | QuantLibWrapper/Swaption.py:24-54 | For a decomposable swaption: flag by direction, strike 0, expiry time to the exercise date, both legs entry by entry from the swap's coupons, and vectors built from those legs. The final time is the last accrual end; the exchanged nominal is the first coupon's |
| `Swaptions.BondOptionDetails` | QuantLibWrapper/Swaption.py:24-54 | Succeeds exactly when the floating leg is non-empty and no accrual-start discount factor is zero, and then returns `Decompose`. Fails with EmptyFloatingLeg exactly when there is no floating coupon. Otherwise fails at the first coupon with a zero start discount factor |
| `BondOptionProperties.TimeAxisLayout` | QuantLibWrapper/Swaption.py:43-47 | For any successful result: payTimes[0] == payTimes[1] == year fraction to the first accrual start; slot 1+i is accrual start i; slot 1+m+j is fixed payment date j; the last slot is the last accrual end |
| `BondOptionProperties.CashflowLayout` | QuantLibWrapper/Swaption.py:48-51 | For any successful result: the first cashflow is -N0 and the last is +N0 (equal size, opposite sign); slot 1+i is minus coupon i's implied amount; slot 1+m+j is fixed amount j unchanged |
| `BondOptionProperties.VectorsCarryBothLegs` | QuantLibWrapper/Swaption.py:43-51 | Round trip: reading slots 1..m (sign undone) and m+1..m+n back out of the two vectors recovers the floating and the fixed leg exactly |
| `BondOptionProperties.NotionalExchangesCancel` | QuantLibWrapper/Swaption.py:48-51 | The cashflow vector sums to the fixed amounts less the floating amounts, whatever the nominal: the two exchanges cancel |
| `BondOptionProperties.ImpliedAmountVanishesAtForward` | QuantLibWrapper/Swaption.py:36-39 | For a non-zero nominal, the implied amount is zero if and only if the coupon's rate is the curve's forward rate over its accrual period |
| `BondOptionProperties.ImpliedAmountIncreasesWithRate` | QuantLibWrapper/Swaption.py:36-39 | With a positive nominal and accrual period, and start and end discount factors of the same sign, a higher rate gives a strictly higher implied amount |
| `BondOptionProperties.ImpliedAmountWorkedExample` | QuantLibWrapper/Swaption.py:36-39 | τ = 0.5, r = 0.03, N = 1,000,000, P(start) = 0.99, P(end) = 0.975 give exactly -12500/33 |
| `BondOptionProperties.PayerReceiverParity` | QuantLibWrapper/Swaption.py:28 | A payer and a receiver swaption on the same legs decompose identically except for the flag, which is +1 for the receiver and -1 for the payer |
| `BondOptionProperties.ExerciseDateOnlyMovesExpiry` | QuantLibWrapper/Swaption.py:30-31 | Moving the exercise date never changes whether the decomposition succeeds or how it fails, and changes only `expiryTime` |
| `BondOptionProperties.EmptyFixedLegAccepted` | QuantLibWrapper/Swaption.py:32-34 | A decomposable swaption with no fixed cashflows succeeds, with an empty fixed leg and vectors of length floating + 2 |
| `Scenarios.ForwardReceiverDecomposition` | QuantLibWrapper/Swaption.py:24-54 | A one-year receiver swaption on a 4-year forward swap (8 semi-annual floating, 4 annual fixed) on a flat curve: flag 1, strike 0, expiry 1.0, 14 payment times from 1.0 to 5.0, exchanges of -1,000,000 and +1,000,000 |
| `Scenarios.NoFloatingCoupons` | QuantLibWrapper/Swaption.py:43 | A swap with no floating coupon fails with EmptyFloatingLeg |
| `Scenarios.ZeroDiscountAtSecondCoupon` | QuantLibWrapper/Swaption.py:35-41 | A curve that discounts only the second coupon's accrual start to zero fails at coupon 1 |

## Left out

- The constructor (QuantLibWrapper/Swaption.py:9-16). It builds QuantLib's exercise, swaption, quote and Bachelier engine objects. `Swaption` keeps only the values the decomposition reads, and `normalVolatility` as a plain field.
- `npv` and `annuity` (QuantLibWrapper/Swaption.py:18-22). Both are one-line delegations to QuantLib pricing code that is not part of this model.
- Actual/365 Fixed day counting, QuantLib dates and discount-curve interpolation. These are function parameters. `Scenarios.Actual365` and `Scenarios.FlatCurve` are example instances only.
- Discount-curve lookup failures, such as a date outside the curve's range. The model's discount function is total.
- `ql.as_coupon` on a floating-leg cashflow that is not a coupon. The floating leg is modelled as a sequence of coupons.
- ImpliedAmount: the arithmetic is over exact reals, not IEEE doubles, so rounding of the implied amount is not modelled.
- Ordering or monotonicity of the payment times, and the exercise date falling before the cashflows. The code neither checks nor promises these, so no lemma asserts them.
- Amortizing nominals: both exchanges use the first coupon's nominal, as the code does. The model keeps this without generalising it.
- The unused `pandas` import.
