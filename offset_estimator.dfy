/** The offset estimator: how much money to keep in the offset account, and how
    much extra the credit-card interest-free period keeps there on average.

    Every amount is an exact `real`. The amount fields come from number inputs
    that have no lower bound, so the functions accept any value; non-negativity
    appears only as a hypothesis of the properties that need it. The two
    sliders (months of emergency cover 1..12, interest-free days 0..60) are
    range-checked by the input layer and described by `SliderRanges`.
 */
module OffsetEstimator {

  /** The values read from the "Offset Account Setup" inputs. */
  datatype OffsetInputs = OffsetInputs(
    monthlyExpenses: real,    // monthly living expenses
    monthsEmergency: int,     // months of emergency cover, slider 1..12
    annualSavings: real,      // estimated annual savings
    creditCardSpend: real,    // monthly expenses put on the credit card
    interestFreeDays: int,    // credit-card interest-free period, slider 0..60
    ccFee: real               // credit-card annual fee
  )

  /** What the two sliders guarantee. */
  predicate SliderRanges(inp: OffsetInputs) {
    1 <= inp.monthsEmergency <= 12 && 0 <= inp.interestFreeDays <= 60
  }

  /** The amounts a user can reasonably enter: nothing negative. */
  predicate NonNegativeAmounts(inp: OffsetInputs) {
    inp.monthlyExpenses >= 0.0 && inp.annualSavings >= 0.0 &&
    inp.creditCardSpend >= 0.0 && inp.ccFee >= 0.0
  }

  /** Emergency fund: monthly expenses times the number of months of cover.
      With cover between 1 and 12 months it lies between one and twelve
      months of expenses. */
  function EmergencyFund(inp: OffsetInputs): (r: real)
    ensures inp.monthlyExpenses >= 0.0 && SliderRanges(inp) ==> inp.monthlyExpenses <= r
    ensures inp.monthlyExpenses >= 0.0 && SliderRanges(inp) ==> r <= 12.0 * inp.monthlyExpenses
  {
    ScaledByMonths(inp.monthlyExpenses, inp.monthsEmergency);
    inp.monthlyExpenses * (inp.monthsEmergency as real)
  }

  /** Average extra offset balance from paying expenses by credit card: the
      card spend times the interest-free period measured in 30-day months
      (true division, so a 45-day period counts as 1.5 months). */
  function CreditCardBuffer(inp: OffsetInputs): (r: real)
    ensures inp.interestFreeDays == 0 || inp.creditCardSpend == 0.0 ==> r == 0.0
    ensures inp.creditCardSpend >= 0.0 && SliderRanges(inp) ==>
              0.0 <= r <= 2.0 * inp.creditCardSpend
  {
    var months := inp.interestFreeDays as real / 30.0;
    assert inp.creditCardSpend >= 0.0 && SliderRanges(inp) ==>
             inp.creditCardSpend * months <= inp.creditCardSpend * 2.0 by {
      if inp.creditCardSpend >= 0.0 && SliderRanges(inp) {
        MulMonotone(inp.creditCardSpend, months, 2.0);
      }
    }
    inp.creditCardSpend * months
  }

  /** Recommended offset balance: the emergency fund plus a year of savings.
      The credit-card buffer is deliberately not part of it (see
      `RecommendedIgnoresCard`). */
  function RecommendedOffsetBalance(inp: OffsetInputs): (r: real)
    ensures inp.monthlyExpenses >= 0.0 && inp.annualSavings >= 0.0 && SliderRanges(inp) ==>
              r >= EmergencyFund(inp) && r >= inp.annualSavings &&
              r >= inp.monthlyExpenses
  {
    EmergencyFund(inp) + inp.annualSavings
  }

  /** Scaling a non-negative amount by a larger factor gives a larger result. */
  lemma MulMonotone(x: real, a: real, b: real)
    requires x >= 0.0 && a <= b
    ensures x * a <= x * b
  {
    assert x * b - x * a == x * (b - a);
  }

  /** An amount scaled by a whole number of months between 1 and 12 lies
      between one and twelve times the amount. */
  lemma ScaledByMonths(amount: real, months: int)
    ensures amount >= 0.0 && 1 <= months <= 12 ==>
              amount <= amount * (months as real) <= 12.0 * amount
  {
    if amount >= 0.0 && 1 <= months <= 12 {
      MulMonotone(amount, 1.0, months as real);
      MulMonotone(amount, months as real, 12.0);
    }
  }

  /** The credit-card buffer never decreases as the interest-free period grows
      (for a non-negative card spend). */
  lemma BufferMonotoneInDays(inp: OffsetInputs, days: int)
    requires inp.creditCardSpend >= 0.0 && inp.interestFreeDays <= days
    ensures CreditCardBuffer(inp) <= CreditCardBuffer(inp.(interestFreeDays := days))
  {
    MulMonotone(inp.creditCardSpend, inp.interestFreeDays as real / 30.0, days as real / 30.0);
  }

  /** The credit-card inputs have no influence on the recommended balance. */
  lemma RecommendedIgnoresCard(inp: OffsetInputs, spend: real, days: int, fee: real)
    ensures RecommendedOffsetBalance(inp) ==
            RecommendedOffsetBalance(inp.(creditCardSpend := spend, interestFreeDays := days, ccFee := fee))
  {
  }
}
