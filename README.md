# Offset mortgage and revolving-credit savings calculator — Dafny model

The calculator estimates how much money a mortgage holder should keep in an
offset account, how much extra balance paying everyday expenses by credit
card keeps there, and how much interest that saves on the floating portion of
a split mortgage. This project models its calculation, with the input widgets
replaced by parameters, and proves the properties the calculation promises.

- `offset_estimator.dfy`, module `OffsetEstimator`: the emergency fund
  (monthly expenses × months of cover), the credit-card buffer (card spend ×
  interest-free days / 30) and the recommended offset balance (emergency fund
  + annual savings, without the buffer).
- `mortgage_portfolio.dfy`, module `MortgagePortfolio`: a portion record
  (balance, rate as a fraction, term, `Fixed | Floating`); the loop that builds
  the portion list from the input groups, converting each percentage into a
  fraction; and the aggregates over the list — total balance, floating
  balance, and the rate of the first floating portion (0 if none).
- `annual_benefit.dfy`, module `AnnualBenefit`: the effective offset
  (recommended balance + buffer), the yearly interest saved
  (`min(effective offset, floating balance) × floating rate`), the net benefit
  after the card fee, and `Calculate`, which runs the whole page from inputs
  to the figures it shows.

Amounts and rates are exact `real`s. The amount inputs and the rate input
have no lower bound, so every function accepts negative values; properties
that need non-negative amounts state that as a hypothesis. The input ranges
are used in two ways. The functions of the offset estimator and
`EffectiveOffset` have no preconditions: the slider ranges for months of
cover (1..12) and interest-free days (0..60), collected in `SliderRanges`,
appear only as hypotheses inside their `ensures`. `BuildPortions` requires
the term slider's range (1..30) of every entry it reads, and `Calculate`,
which stands for the whole page, requires `SliderRanges`, the term range and
the range of the bounded number input for the number of portions (1..5).

The aggregates are recursive functions over `seq<Portion>`; each has a
partner: `FloatingBalance` is tied to `TotalBalance` of the filtered list
(`FloatingPortions`), `FloatingRate` is characterised by the first floating
index (`IsFirstFloating`, `FirstFloatingExists`) and by what appending does
to it. The list construction is a method with a loop whose `ensures` states
the length, the order and the per-entry conversion.

## Model

| member | source | states |
|---|---|---|
| `OffsetEstimator.EmergencyFund` | calculator.py:16-24 | for non-negative monthly expenses and 1..12 months of cover, the fund lies between one and twelve months of expenses |
| `OffsetEstimator.CreditCardBuffer` | calculator.py:20-25 | the buffer is 0 when the interest-free period or the card spend is 0; for non-negative spend and 0..60 days it lies between 0 and twice the card spend |
| `OffsetEstimator.RecommendedOffsetBalance` | calculator.py:24-26 | for non-negative inputs the recommendation is at least the emergency fund, at least the annual savings and at least one month of expenses |
| `OffsetEstimator.BufferMonotoneInDays` | calculator.py:25 | for a non-negative card spend, a longer interest-free period never gives a smaller buffer |
| `OffsetEstimator.RecommendedIgnoresCard` | calculator.py:26 | the recommended balance does not depend on card spend, interest-free days or card fee: the buffer is not part of it |
| `MortgagePortfolio.BuildPortions` | calculator.py:36-45 | the list has exactly `numLoans` portions, portion `i` comes from input group `i`, its stored rate times 100 is the entered percentage, and balance, term (1..30) and type are carried over |
| `MortgagePortfolio.TotalBalance` | calculator.py:53 | with non-negative balances the total is non-negative and at least every single portion's balance |
| `MortgagePortfolio.TotalBalanceAppend` | calculator.py:45-53 | the total of a concatenated list is the sum of the totals; appending a portion adds its balance |
| `MortgagePortfolio.FloatingBalance` | calculator.py:54 | with non-negative balances the floating balance is between 0 and the total balance; it is 0 when no portion is floating and equals the total when all are |
| `MortgagePortfolio.FloatingPortions` | calculator.py:54 | the floating portions of the list: a portion is in the result exactly when it is in the list and floating; the result is the whole list when all portions are floating and empty when none is |
| `MortgagePortfolio.FloatingPortionsAppend` | calculator.py:54 | filtering a concatenation gives the concatenation of the filtered lists, so the floating portions keep their order |
| `MortgagePortfolio.FloatingBalanceAppend` | calculator.py:45-54 | the floating balance of a concatenation is the sum of the floating balances |
| `MortgagePortfolio.FloatingBalanceIsFilteredTotal` | calculator.py:54 | the floating balance equals the total balance of the floating portions |
| `MortgagePortfolio.FloatingRate` | calculator.py:58 | the result is the rate of the first floating portion in list order; 0 when no portion is floating; non-negative when all rates are |
| `MortgagePortfolio.FirstFloatingExists` | calculator.py:58 | when some portion is floating, a first floating portion exists and the floating rate is the rate of a floating portion of the list |
| `MortgagePortfolio.FloatingRateIgnoresLater` | calculator.py:58 | once the list holds a floating portion, portions appended after it do not change the floating rate |
| `MortgagePortfolio.FloatingRateSkipsFixed` | calculator.py:58 | fixed portions placed in front of a list do not change its floating rate |
| `AnnualBenefit.EffectiveOffset` | calculator.py:57 | for non-negative spend the effective offset lies between the recommended balance and the recommended balance plus twice the card spend, and equals the recommended balance when the buffer is 0 |
| `AnnualBenefit.Min` | calculator.py:59 | the result is one of the two amounts and no larger than either |
| `AnnualBenefit.AnnualInterestSaved` | calculator.py:59 | the saving is the rate applied to the effective offset or to the floating balance; for a non-negative rate it is at most either product; non-negative for non-negative inputs; 0 when the rate is 0, or when the floating balance is 0 and the effective offset is non-negative |
| `AnnualBenefit.MinScaled` | calculator.py:59 | the product of the smaller amount with a non-negative rate is bounded by the product with either amount, and is non-negative for non-negative amounts |
| `AnnualBenefit.SavedMonotoneInOffset` | calculator.py:59 | for a non-negative rate, a larger effective offset never saves less |
| `AnnualBenefit.SavedCappedByFloatingBalance` | calculator.py:59 | once the effective offset reaches the floating balance, the saving is the floating balance times the rate |
| `AnnualBenefit.NetAnnualBenefit` | calculator.py:60 | the net benefit is negative exactly when the fee exceeds the interest saved, and is at most the interest saved for a non-negative fee |
| `AnnualBenefit.PortfolioInterestSaved` | calculator.py:57-59 | the page's interest saved: 0 when no portion is floating, and non-negative when amounts, balances and rates are non-negative and the sliders are in range |
| `AnnualBenefit.AppendKeepsRate` | calculator.py:45-59 | appending a portion to a list that already has a floating portion keeps the rate and adds the portion's balance to the floating balance only when it is floating, so appending a fixed portion leaves the saving unchanged |
| `AnnualBenefit.Calculate` | calculator.py:16-60 | the whole page: the portion list as built by the loop (`numLoans` portions in input order, each with its entry's balance, type and term and the entered percentage divided by 100 as its rate), every shown figure tied to its function, no saving and a net benefit of minus the fee when all portions are fixed, and with non-negative inputs a non-negative saving, a net benefit of at least minus the fee and a floating balance within the total |

## Left out

- Everything the page renders: the title, headings, explanatory text and the currency-formatted result lines. They carry no calculation.
- The input widgets themselves; their values are parameters, and only their ranges (the sliders and the 1..5 bounded number input for the portion count) are stated, as described above.
- Floating-point rounding: amounts and rates are exact reals. Whole-dollar number inputs return integers in the original; the model takes reals, which include them, and nothing depends on integrality.
- The unused numerical-library import.
- The remaining term of a portion is stored but no calculation uses it, so no property is stated about it beyond being carried over.
- Several floating portions with different rates: the saving applies the first floating portion's rate to the whole floating balance, as the original does; when several floating portions have different rates this is not the interest actually charged, and the model does not claim it is.
- calculator.py contains no lump-sum allocation by maturity date, no amortization schedule or months-to-payoff calculation, no editing or deleting of portions, no maturity dates, no alternative buffer policy, no option to include the buffer in the recommendation and no monthly-fee annualisation, so the model has none of these either.
