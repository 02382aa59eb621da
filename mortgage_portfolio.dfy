/** The mortgage portions and the aggregates computed from them: the total
    balance, the balance on floating rate, and the floating rate that the
    offset account is credited against.

    A portion's balance and rate come from number inputs without bounds, so
    the aggregates accept any value; the properties that need non-negative
    balances say so.
 */
module MortgagePortfolio {

  datatype LoanType = Fixed | Floating

  /** One mortgage portion as stored in the portfolio list. The rate is a
      fraction (5.5% is stored as 0.055). The remaining term is kept but no
      calculation reads it. */
  datatype Portion = Portion(balance: real, rate: real, term: int, loanType: LoanType)

  /** What the inputs of one "Portion #i" group return. The rate is entered
      as a percentage; the term comes from a 1..30 year slider. */
  datatype PortionEntry = PortionEntry(balance: real, ratePercent: real, term: int, loanType: LoanType)

  predicate TermInRange(e: PortionEntry) {
    1 <= e.term <= 30
  }

  predicate NonNegativeBalances(parts: seq<Portion>) {
    forall i :: 0 <= i < |parts| ==> parts[i].balance >= 0.0
  }

  predicate NonNegativeRates(parts: seq<Portion>) {
    forall i :: 0 <= i < |parts| ==> parts[i].rate >= 0.0
  }

  predicate AllFloating(parts: seq<Portion>) {
    forall i :: 0 <= i < |parts| ==> parts[i].loanType == Floating
  }

  predicate NoneFloating(parts: seq<Portion>) {
    forall i :: 0 <= i < |parts| ==> parts[i].loanType == Fixed
  }

  /** `k` is the position of the first floating portion in list order. */
  predicate IsFirstFloating(parts: seq<Portion>, k: int) {
    0 <= k < |parts| && parts[k].loanType == Floating &&
    forall j :: 0 <= j < k ==> parts[j].loanType == Fixed
  }

  /** Builds the portfolio list from the first `numLoans` input groups, one
      appended portion per group, converting each entered percentage into a
      fraction. Group `i` is `entries[i]`. */
  method BuildPortions(numLoans: nat, entries: seq<PortionEntry>) returns (parts: seq<Portion>)
    requires numLoans <= |entries|
    requires forall i :: 0 <= i < numLoans ==> TermInRange(entries[i])
    ensures |parts| == numLoans
    ensures forall i :: 0 <= i < numLoans ==>
              parts[i].balance == entries[i].balance &&
              parts[i].rate * 100.0 == entries[i].ratePercent &&
              parts[i].term == entries[i].term && 1 <= parts[i].term <= 30 &&
              parts[i].loanType == entries[i].loanType
  {
    parts := [];
    for i := 0 to numLoans
      invariant |parts| == i
      invariant forall j :: 0 <= j < i ==>
                  parts[j].balance == entries[j].balance &&
                  parts[j].rate * 100.0 == entries[j].ratePercent &&
                  parts[j].term == entries[j].term && 1 <= parts[j].term <= 30 &&
                  parts[j].loanType == entries[j].loanType
    {
      var e := entries[i];
      var rate := e.ratePercent / 100.0;
      parts := parts + [Portion(e.balance, rate, e.term, e.loanType)];
    }
  }

  /** Sum of all portion balances. */
  function TotalBalance(parts: seq<Portion>): (r: real)
    ensures NonNegativeBalances(parts) ==> r >= 0.0
    ensures NonNegativeBalances(parts) ==> forall i :: 0 <= i < |parts| ==> parts[i].balance <= r
  {
    if parts == [] then 0.0 else parts[0].balance + TotalBalance(parts[1..])
  }

  /** Sum of the balances of the floating portions only. With non-negative
      balances it is between zero and the total balance. */
  function FloatingBalance(parts: seq<Portion>): (r: real)
    ensures NonNegativeBalances(parts) ==> 0.0 <= r <= TotalBalance(parts)
    ensures NoneFloating(parts) ==> r == 0.0
    ensures AllFloating(parts) ==> r == TotalBalance(parts)
  {
    if parts == [] then 0.0
    else (if parts[0].loanType == Floating then parts[0].balance else 0.0) + FloatingBalance(parts[1..])
  }

  /** The rate of the first floating portion in list order, or 0 when there
      is none. */
  function FloatingRate(parts: seq<Portion>): (r: real)
    ensures forall k :: IsFirstFloating(parts, k) ==> r == parts[k].rate
    ensures NoneFloating(parts) ==> r == 0.0
    ensures NonNegativeRates(parts) ==> r >= 0.0
  {
    if parts == [] then 0.0
    else if parts[0].loanType == Floating then parts[0].rate
    else FloatingRate(parts[1..])
  }

  /** The floating portions of `parts`, in list order. It keeps exactly the floating portions; how it acts on a
      concatenation (`FloatingPortionsAppend`) fixes their order. */
  function FloatingPortions(parts: seq<Portion>): (r: seq<Portion>)
    ensures AllFloating(r) && |r| <= |parts|
    ensures forall p :: p in r <==> p in parts && p.loanType == Floating
    ensures AllFloating(parts) ==> r == parts
    ensures NoneFloating(parts) ==> r == []
  {
    if parts == [] then []
    else
      assert parts == [parts[0]] + parts[1..];
      (if parts[0].loanType == Floating then [parts[0]] else []) + FloatingPortions(parts[1..])
  }

  /** Filtering a concatenation is concatenating the filtered parts, so the
      floating portions keep their relative order. */
  lemma {:induction false} FloatingPortionsAppend(a: seq<Portion>, b: seq<Portion>)
    ensures FloatingPortions(a + b) == FloatingPortions(a) + FloatingPortions(b)
  {
    if a == [] {
      assert a + b == b;
    } else {
      assert (a + b)[0] == a[0] && (a + b)[1..] == a[1..] + b;
      FloatingPortionsAppend(a[1..], b);
    }
  }

  /** The floating balance of a concatenation is the sum of the floating
      balances; appending a fixed portion leaves it unchanged. */
  lemma {:induction false} FloatingBalanceAppend(a: seq<Portion>, b: seq<Portion>)
    ensures FloatingBalance(a + b) == FloatingBalance(a) + FloatingBalance(b)
  {
    if a == [] {
      assert a + b == b;
    } else {
      assert (a + b)[0] == a[0] && (a + b)[1..] == a[1..] + b;
      FloatingBalanceAppend(a[1..], b);
    }
  }

  /** The total balance of a concatenation is the sum of the totals; in
      particular appending a portion adds its balance. */
  lemma {:induction false} TotalBalanceAppend(a: seq<Portion>, b: seq<Portion>)
    ensures TotalBalance(a + b) == TotalBalance(a) + TotalBalance(b)
  {
    if a == [] {
      assert a + b == b;
    } else {
      assert (a + b)[1..] == a[1..] + b;
      TotalBalanceAppend(a[1..], b);
    }
  }

  /** The floating balance is the total balance of the floating portions:
      the filtered sum agrees with summing the filtered list. */
  lemma {:induction false} FloatingBalanceIsFilteredTotal(parts: seq<Portion>)
    ensures FloatingBalance(parts) == TotalBalance(FloatingPortions(parts))
  {
    if parts != [] {
      FloatingBalanceIsFilteredTotal(parts[1..]);
      var head := if parts[0].loanType == Floating then [parts[0]] else [];
      TotalBalanceAppend(head, FloatingPortions(parts[1..]));
    }
  }

  /** Whenever some portion is floating, a first one exists, so the floating
      rate is then the rate of an actual floating portion. */
  lemma {:induction false} FirstFloatingExists(parts: seq<Portion>)
    requires !NoneFloating(parts)
    ensures exists k :: IsFirstFloating(parts, k)
    ensures exists k :: 0 <= k < |parts| && parts[k].loanType == Floating && FloatingRate(parts) == parts[k].rate
  {
    if parts[0].loanType == Floating {
      assert IsFirstFloating(parts, 0);
    } else {
      assert !NoneFloating(parts[1..]) by {
        var i :| 0 <= i < |parts| && parts[i].loanType != Fixed;
        assert parts[1..][i - 1] == parts[i];
      }
      FirstFloatingExists(parts[1..]);
      var k :| IsFirstFloating(parts[1..], k);
      assert parts[1..][k] == parts[k + 1];
      assert IsFirstFloating(parts, k + 1);
    }
  }

  /** Once a floating portion has been seen, later portions do not change
      the floating rate. */
  lemma {:induction false} FloatingRateIgnoresLater(a: seq<Portion>, b: seq<Portion>)
    requires !NoneFloating(a)
    ensures FloatingRate(a + b) == FloatingRate(a)
  {
    if a[0].loanType == Fixed {
      assert (a + b)[1..] == a[1..] + b;
      assert !NoneFloating(a[1..]) by {
        var i :| 0 <= i < |a| && a[i].loanType != Fixed;
        assert a[1..][i - 1] == a[i];
      }
      FloatingRateIgnoresLater(a[1..], b);
    }
  }

  /** Fixed portions in front do not change the floating rate. */
  lemma {:induction false} FloatingRateSkipsFixed(a: seq<Portion>, b: seq<Portion>)
    requires NoneFloating(a)
    ensures FloatingRate(a + b) == FloatingRate(b)
  {
    if a == [] {
      assert a + b == b;
    } else {
      assert (a + b)[0] == a[0] && (a + b)[1..] == a[1..] + b;
      assert a[0].loanType == Fixed;
      assert NoneFloating(a[1..]) by {
        forall i | 0 <= i < |a[1..]| ensures a[1..][i].loanType == Fixed {
          assert a[1..][i] == a[i + 1];
        }
      }
      FloatingRateSkipsFixed(a[1..], b);
    }
  }
}
