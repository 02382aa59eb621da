/** The results section: the balance that works as an offset against the
    floating portion, the yearly interest it saves, and what is left after the
    credit-card fee. `Calculate` runs the whole calculation from the inputs.
 */
module AnnualBenefit {
  import opened OffsetEstimator
  import opened MortgagePortfolio

  /** The figures the results section shows. */
  datatype Report = Report(
    recommendedOffsetBalance: real,
    creditCardBuffer: real,
    totalBalance: real,
    annualInterestSaved: real,
    ccFee: real,
    netAnnualBenefit: real
  )

  /** The balance that offsets the floating portion: the recommended balance
      plus the credit-card buffer. It is where the buffer, left out of the
      recommendation, comes back in. */
  function EffectiveOffset(inp: OffsetInputs): (r: real)
    ensures inp.creditCardSpend >= 0.0 && SliderRanges(inp) ==>
              RecommendedOffsetBalance(inp) <= r <= RecommendedOffsetBalance(inp) + 2.0 * inp.creditCardSpend
    ensures (inp.interestFreeDays == 0 || inp.creditCardSpend == 0.0) ==> r == RecommendedOffsetBalance(inp)
  {
    RecommendedOffsetBalance(inp) + CreditCardBuffer(inp)
  }

  /** The smaller of two amounts, the first one on a tie. */
  function Min(a: real, b: real): (m: real)
    ensures m <= a && m <= b && (m == a || m == b)
  {
    if b < a then b else a
  }

  /** Yearly interest saved: the offset earns the floating rate on at most the
      floating balance. The result is the rate applied to one of the two
      amounts, whichever is smaller; with non-negative inputs it is bounded by
      the rate applied to either. */
  function AnnualInterestSaved(effectiveOffset: real, floatingBalance: real, floatingRate: real): (r: real)
    ensures r == effectiveOffset * floatingRate || r == floatingBalance * floatingRate
    ensures floatingRate >= 0.0 ==> r <= floatingBalance * floatingRate && r <= effectiveOffset * floatingRate
    ensures effectiveOffset >= 0.0 && floatingBalance >= 0.0 && floatingRate >= 0.0 ==> r >= 0.0
    ensures floatingRate == 0.0 ==> r == 0.0
    ensures effectiveOffset >= 0.0 && floatingBalance == 0.0 ==> r == 0.0
  {
    var m := Min(effectiveOffset, floatingBalance);
    MinScaled(effectiveOffset, floatingBalance, floatingRate);
    m * floatingRate
  }

  /** The bounds on the smaller of two amounts carry over to its product with
      a non-negative rate. */
  lemma MinScaled(a: real, b: real, rate: real)
    ensures rate >= 0.0 ==> Min(a, b) * rate <= a * rate && Min(a, b) * rate <= b * rate
    ensures a >= 0.0 && b >= 0.0 && rate >= 0.0 ==> Min(a, b) * rate >= 0.0
  {
    if rate >= 0.0 {
      var m := Min(a, b);
      MulMonotone(rate, m, a);
      MulMonotone(rate, m, b);
      assert rate * m == m * rate && rate * a == a * rate && rate * b == b * rate;
      if a >= 0.0 && b >= 0.0 {
        MulMonotone(rate, 0.0, m);
      }
    }
  }

  /** Net yearly benefit: interest saved less the card fee. A negative value
      is a valid answer: it means the fee costs more than the offset saves. */
  function NetAnnualBenefit(interestSaved: real, ccFee: real): (r: real)
    ensures r < 0.0 <==> interestSaved < ccFee
    ensures ccFee >= 0.0 ==> r <= interestSaved
  {
    interestSaved - ccFee
  }

  /** Yearly interest saved on a portfolio: the effective offset earns the
      first floating rate on at most the floating balance. Nothing is saved
      without a floating portion; with non-negative inputs the saving is
      non-negative. */
  function PortfolioInterestSaved(inp: OffsetInputs, parts: seq<Portion>): (r: real)
    ensures NoneFloating(parts) ==> r == 0.0
    ensures (NonNegativeAmounts(inp) && SliderRanges(inp) &&
             NonNegativeBalances(parts) && NonNegativeRates(parts)) ==> r >= 0.0
  {
    var effective := EffectiveOffset(inp);
    var floatingBalance := FloatingBalance(parts);
    var floatingRate := FloatingRate(parts);
    assert NonNegativeAmounts(inp) && SliderRanges(inp) ==> effective >= 0.0 by {
      if NonNegativeAmounts(inp) && SliderRanges(inp) {
        assert RecommendedOffsetBalance(inp) >= inp.annualSavings >= 0.0;
      }
    }
    AnnualInterestSaved(effective, floatingBalance, floatingRate)
  }

  /** More offset never saves less, for a non-negative rate. */
  lemma {:induction false} SavedMonotoneInOffset(e1: real, e2: real, floatingBalance: real, floatingRate: real)
    requires e1 <= e2 && floatingRate >= 0.0
    ensures AnnualInterestSaved(e1, floatingBalance, floatingRate) <= AnnualInterestSaved(e2, floatingBalance, floatingRate)
  {
    var m1, m2 := Min(e1, floatingBalance), Min(e2, floatingBalance);
    MulMonotone(floatingRate, m1, m2);
    assert floatingRate * m1 == m1 * floatingRate && floatingRate * m2 == m2 * floatingRate;
  }

  /** Offset beyond the floating balance earns nothing more: from there on
      the saving is the floating balance at the floating rate. */
  lemma SavedCappedByFloatingBalance(effectiveOffset: real, floatingBalance: real, floatingRate: real)
    requires floatingBalance <= effectiveOffset
    ensures AnnualInterestSaved(effectiveOffset, floatingBalance, floatingRate) == floatingBalance * floatingRate
  {
  }

  /** Adding a portion to a list that already has a floating portion keeps
      the rate; the portion's balance joins the floating balance only when it
      is floating, so appending a fixed portion changes nothing. */
  lemma AppendKeepsRate(inp: OffsetInputs, parts: seq<Portion>, p: Portion)
    requires !NoneFloating(parts)
    ensures PortfolioInterestSaved(inp, parts + [p]) ==
            AnnualInterestSaved(EffectiveOffset(inp),
                                FloatingBalance(parts) + (if p.loanType == Floating then p.balance else 0.0),
                                FloatingRate(parts))
    ensures FloatingRate(parts + [p]) == FloatingRate(parts)
    ensures p.loanType == Fixed ==> PortfolioInterestSaved(inp, parts + [p]) == PortfolioInterestSaved(inp, parts)
  {
    FloatingRateIgnoresLater(parts, [p]);
    FloatingBalanceAppend(parts, [p]);
    assert [p][1..] == [];
    var added := if p.loanType == Floating then p.balance else 0.0;
    assert FloatingBalance([p]) == added;
    assert FloatingBalance(parts + [p]) == FloatingBalance(parts) + added;
  }

  /** The whole calculation: build the portfolio from the first `numLoans`
      input groups and compute every figure of the results section. */
  method Calculate(inp: OffsetInputs, numLoans: nat, entries: seq<PortionEntry>)
    returns (parts: seq<Portion>, report: Report)
    requires SliderRanges(inp)
    requires 1 <= numLoans <= 5 && numLoans <= |entries|
    requires forall i :: 0 <= i < numLoans ==> TermInRange(entries[i])
    ensures |parts| == numLoans
    ensures forall i :: 0 <= i < numLoans ==>
              parts[i].balance == entries[i].balance &&
              parts[i].rate * 100.0 == entries[i].ratePercent &&
              parts[i].term == entries[i].term &&
              parts[i].loanType == entries[i].loanType
    ensures report.recommendedOffsetBalance == RecommendedOffsetBalance(inp)
    ensures report.creditCardBuffer == CreditCardBuffer(inp)
    ensures report.totalBalance == TotalBalance(parts)
    ensures report.annualInterestSaved == PortfolioInterestSaved(inp, parts)
    ensures report.ccFee == inp.ccFee
    ensures report.netAnnualBenefit == NetAnnualBenefit(report.annualInterestSaved, inp.ccFee)
    ensures (forall i :: 0 <= i < numLoans ==> entries[i].loanType == Fixed) ==>
              report.annualInterestSaved == 0.0 && report.netAnnualBenefit == -inp.ccFee
    ensures NonNegativeAmounts(inp) &&
            (forall i :: 0 <= i < numLoans ==> entries[i].balance >= 0.0 && entries[i].ratePercent >= 0.0) ==>
              0.0 <= report.annualInterestSaved && report.netAnnualBenefit >= -inp.ccFee &&
              FloatingBalance(parts) <= report.totalBalance
  {
    parts := BuildPortions(numLoans, entries);
    var recommended := RecommendedOffsetBalance(inp);
    var buffer := CreditCardBuffer(inp);
    var effective := EffectiveOffset(inp);
    var floatingBalance := FloatingBalance(parts);
    var floatingRate := FloatingRate(parts);
    var saved := AnnualInterestSaved(effective, floatingBalance, floatingRate);
    report := Report(recommended, buffer, TotalBalance(parts), saved, inp.ccFee, NetAnnualBenefit(saved, inp.ccFee));
    if NonNegativeAmounts(inp) &&
       (forall i :: 0 <= i < numLoans ==> entries[i].balance >= 0.0 && entries[i].ratePercent >= 0.0) {
      assert NonNegativeBalances(parts) && NonNegativeRates(parts);
      assert effective >= 0.0 && floatingBalance >= 0.0 && floatingRate >= 0.0;
    }
  }
}
