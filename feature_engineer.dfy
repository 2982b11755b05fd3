/**
 * Feature engineering: the three derived features (app.py:132-135) and the
 * income bucket that `pd.cut` assigns (app.py:151).
 *
 * Division is exact on reals; Python's float rounding is not modelled.
 */
module FeatureEngineer {
  import opened Wrappers
  import opened InputCollector

  // Business constants of the derived features (app.py:132, 134).
  const RatioCap: real := 0.6
  const BurdenThreshold: real := 0.3
  const RateThreshold: real := 15.0

  /** `min(loan_amnt / income, 0.6)`; the caller has already rejected income <= 0. */
  function LoanPercentIncome(loanAmnt: real, income: real): (r: real)
    requires income > 0.0
    ensures r <= RatioCap
    ensures loanAmnt / income <= RatioCap ==> r == loanAmnt / income
    ensures loanAmnt / income > RatioCap ==> r == RatioCap
    ensures loanAmnt >= 0.0 ==> r >= 0.0
  {
    Min(loanAmnt / income, RatioCap)
  }

  /** `int(loan_percent_income > 0.3 and loan_int_rate > 15)` as a float. */
  function AggressiveLoanFlag(loanPercentIncome: real, intRate: real): (r: real)
    ensures r == 0.0 || r == 1.0
    ensures r == 1.0 <==> loanPercentIncome > BurdenThreshold && intRate > RateThreshold
  {
    if loanPercentIncome > BurdenThreshold && intRate > RateThreshold then 1.0 else 0.0
  }

  /** `(loan_int_rate * loan_percent_income) / (credit_score + 1)`. */
  function RiskInversionScore(intRate: real, loanPercentIncome: real, creditScore: real): (r: real)
    requires creditScore + 1.0 != 0.0
    ensures intRate >= 0.0 && loanPercentIncome >= 0.0 && creditScore + 1.0 > 0.0 ==> r >= 0.0
    ensures r * (creditScore + 1.0) == intRate * loanPercentIncome
  {
    var r := (intRate * loanPercentIncome) / (creditScore + 1.0);
    if intRate >= 0.0 && loanPercentIncome >= 0.0 && creditScore + 1.0 > 0.0 then
      assert intRate * loanPercentIncome >= 0.0;
      QuotientNonNegative(intRate * loanPercentIncome, creditScore + 1.0);
      r
    else
      r
  }

  lemma QuotientNonNegative(p: real, q: real)
    requires p >= 0.0 && q > 0.0
    ensures p / q >= 0.0
  {
    assert (p / q) * q == p;
  }

  /** An applicant the feature formulas can be applied to: a positive income
      (guaranteed by the validation step) and a non-zero `credit_score + 1`
      denominator (guaranteed by capping the score to at least 300). */
  predicate Derivable(a: Applicant) {
    a.income > 0.0 && a.creditScore + 1.0 != 0.0
  }

  datatype Derived = Derived(loanPercentIncome: real, aggressiveLoanFlag: real, riskInversionScore: real)

  /** The three derived features, computed in the script's order (app.py:132-135). */
  function Derive(a: Applicant): (d: Derived)
    requires Derivable(a)
    ensures d.loanPercentIncome <= RatioCap
    ensures a.loanAmnt / a.income <= RatioCap ==> d.loanPercentIncome == a.loanAmnt / a.income
    ensures d.aggressiveLoanFlag == 1.0 <==> d.loanPercentIncome > BurdenThreshold && a.intRate > RateThreshold
    ensures d.aggressiveLoanFlag == 0.0 || d.aggressiveLoanFlag == 1.0
  {
    var lpi := LoanPercentIncome(a.loanAmnt, a.income);
    Derived(lpi, AggressiveLoanFlag(lpi, a.intRate), RiskInversionScore(a.intRate, lpi, a.creditScore))
  }

  /** For a capped applicant with positive income: the ratio lies in [0, 0.6]
      and the risk-inversion score is non-negative, because the rate is at
      least 0 and `credit_score + 1` at least 301. */
  lemma DerivedBounds(a: Applicant)
    requires InRanges(a) && a.income > 0.0
    ensures Derivable(a)
    ensures 0.0 <= Derive(a).loanPercentIncome <= RatioCap
    ensures 0.0 <= Derive(a).riskInversionScore <= 12.0 / 301.0
  {
    var lpi := LoanPercentIncome(a.loanAmnt, a.income);
    assert lpi >= 0.0;
    assert a.creditScore + 1.0 >= 301.0;
    ScoreBound(a.intRate, lpi, a.creditScore + 1.0, Derive(a).riskInversionScore);
  }

  /** With a rate of at most 20, a ratio of at most 0.6 and a denominator of
      at least 301, the quotient is at most 12/301. */
  lemma ScoreBound(rate: real, lpi: real, q: real, s: real)
    requires 0.0 <= rate <= 20.0 && 0.0 <= lpi <= 0.6 && q >= 301.0
    requires s * q == rate * lpi
    ensures s <= 12.0 / 301.0
  {
    ProductNonNegative(20.0 - rate, lpi);
    assert s * q <= 12.0;
    if s > 12.0 / 301.0 {
      ProductNonNegative(s, q - 301.0);
      assert false;
    }
  }

  lemma ProductNonNegative(x: real, y: real)
    requires x >= 0.0 && y >= 0.0
    ensures x * y >= 0.0
  {
  }

  /** Scenario: income 50000, loan 10000, rate 10 gives ratio 0.2 and no flag. */
  lemma ModestLoanScenario()
    ensures LoanPercentIncome(10000.0, 50000.0) == 0.2
    ensures AggressiveLoanFlag(LoanPercentIncome(10000.0, 50000.0), 10.0) == 0.0
  {
  }

  /** Scenario: income 1000, loan 35000, rate 18 caps the ratio at 0.6 and raises the flag. */
  lemma AggressiveLoanScenario()
    ensures LoanPercentIncome(35000.0, 1000.0) == 0.6
    ensures AggressiveLoanFlag(LoanPercentIncome(35000.0, 1000.0), 18.0) == 1.0
  {
  }

  /**
   * The observable effect of `pd.cut([x], bins)[0]` with right-closed bins:
   * `edges` are the finite bin edges and the last bin is open upwards (the
   * source's last edge is `np.inf`). The result is the index i of the bin
   * `(edges[i], edges[i+1]]` holding x, or `None` when x is not above the
   * lowest edge (pandas gives NaN there).
   */
  function Cut(x: real, edges: seq<real>): (r: Option<nat>)
    requires |edges| >= 1
    ensures r.None? <==> x <= edges[0]
    ensures r.Some? ==> r.value < |edges| && edges[r.value] < x
    ensures r.Some? && r.value + 1 < |edges| ==> x <= edges[r.value + 1]
  {
    if x <= edges[0] then None else Some(CutFrom(x, edges, 0))
  }

  /** The first bin at or after `i` whose upper edge is not below x. */
  function CutFrom(x: real, edges: seq<real>, i: nat): (r: nat)
    requires i < |edges| && edges[i] < x
    ensures i <= r < |edges| && edges[r] < x
    ensures r + 1 < |edges| ==> x <= edges[r + 1]
    decreases |edges| - i
  {
    if i + 1 == |edges| || x <= edges[i + 1] then i else CutFrom(x, edges, i + 1)
  }

  predicate StrictlyIncreasing(s: seq<real>) {
    forall i, j :: 0 <= i < j < |s| ==> s[i] < s[j]
  }

  /** Over increasing edges a value lies in exactly one bin: every bin whose
      interval holds x is the one `Cut` returns. */
  lemma CutUnique(x: real, edges: seq<real>, k: nat)
    requires |edges| >= 1 && StrictlyIncreasing(edges)
    requires k < |edges| && edges[k] < x && (k + 1 < |edges| ==> x <= edges[k + 1])
    ensures Cut(x, edges) == Some(k)
  {
  }

  /** The labels of `pd.cut(..., labels=['Low', 'Mid', 'High', 'Very High'])`. */
  datatype IncomeBucket = Low | Mid | High | VeryHigh {
    function Label(): string {
      match this
      case Low => "Low"
      case Mid => "Mid"
      case High => "High"
      case VeryHigh => "Very High"
    }
  }

  /** The finite edges of `bins=[0, 25000, 50000, 100000, np.inf]`. */
  const IncomeEdges: seq<real> := [0.0, 25000.0, 50000.0, 100000.0]
  const BucketLabels: seq<IncomeBucket> := [Low, Mid, High, VeryHigh]

  /** The income bucket of app.py:151; `None` stands for pandas' NaN. */
  function Bucket(income: real): (b: Option<IncomeBucket>)
    ensures b.None? <==> income <= 0.0
  {
    match Cut(income, IncomeEdges)
    case None => None
    case Some(i) => Some(BucketLabels[i])
  }

  /** The bins are right-closed: (0, 25000] is Low, (25000, 50000] Mid,
      (50000, 100000] High, anything above Very High. */
  lemma BucketBoundaries(income: real)
    ensures Bucket(income) == Some(Low) <==> 0.0 < income <= 25000.0
    ensures Bucket(income) == Some(Mid) <==> 25000.0 < income <= 50000.0
    ensures Bucket(income) == Some(High) <==> 50000.0 < income <= 100000.0
    ensures Bucket(income) == Some(VeryHigh) <==> 100000.0 < income
  {
    assert StrictlyIncreasing(IncomeEdges);
    if 0.0 < income <= 25000.0 {
      CutUnique(income, IncomeEdges, 0);
    } else if 25000.0 < income <= 50000.0 {
      CutUnique(income, IncomeEdges, 1);
    } else if 50000.0 < income <= 100000.0 {
      CutUnique(income, IncomeEdges, 2);
    } else if 100000.0 < income {
      CutUnique(income, IncomeEdges, 3);
    }
  }

  /** The boundary values land in the lower bin. */
  lemma BucketEdgesAreRightInclusive()
    ensures Bucket(25000.0) == Some(Low)
    ensures Bucket(50000.0) == Some(Mid)
    ensures Bucket(100000.0) == Some(High)
  {
    BucketBoundaries(25000.0);
    BucketBoundaries(50000.0);
    BucketBoundaries(100000.0);
  }
}
