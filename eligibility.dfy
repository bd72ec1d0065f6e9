// The "Loan Predictor" tab: the eligibility rule that turns the five form
// inputs into a decision, a confidence score and the flags the result
// card shows.
module Eligibility {
  import opened Text

  /** The three property areas the form and the data set know. */
  datatype Area = Urban | Semiurban | Rural

  /** What the form collects. The number inputs have no lower bound, so every
      integer can reach the rule, negative ones included. */
  datatype Applicant = Applicant(
    income: int,          // monthly income in dollars
    coapplicantIncome: int,
    loanThousands: int,   // requested loan, in thousands
    creditLabel: string,  // the credit-history option as displayed
    area: Area)

  /** The two options the credit-history select box offers. */
  const ClearLabel: string := "Clear (1.0)"
  const DebtsLabel: string := "Debts (0.0)"

  /** The ratio used when the combined income is not positive. */
  const SentinelRatio: real := 100.0
  /** A ratio strictly below this passes the affordability test. */
  const RatioLimit: real := 50.0

  /** The three arms of the decision, in the order the rule tries them. */
  datatype Branch = Affordable | Unaffordable | BadCredit

  /** The values the rule computes. */
  datatype Assessment = Assessment(
    creditScore: real,
    totalIncome: int,
    ratio: real,
    approved: bool,
    probability: real)

  /** The strings the result card is built from. */
  datatype Display = Display(
    statusColor: string,
    statusText: string,
    passFail: string,
    ratioColor: string)

  const Green: string := "#00ff9d"
  const Red: string := "#ff4b4b"

  /** 1.0 when the label contains "1.0", else 0.0. */
  function CreditScore(option: string): (score: real)
    ensures score == 1.0 || score == 0.0
    ensures score == 1.0 <==> exists i :: OccursAt(option, "1.0", i)
  {
    ContainsIffOccurs(option, "1.0");
    if Contains(option, "1.0") then 1.0 else 0.0
  }

  /** Loan (in thousands) over combined income (in thousands), or the
      sentinel when there is no positive income to divide by. */
  function Ratio(loanThousands: int, totalIncome: int): (ratio: real)
    ensures totalIncome <= 0 ==> ratio == SentinelRatio
    ensures totalIncome > 0 ==> ratio * (totalIncome as real) == 1000.0 * (loanThousands as real)
  {
    if totalIncome > 0 then (loanThousands as real) / ((totalIncome as real) / 1000.0)
    else SentinelRatio
  }

  /** Which arm of the if/elif/else runs. */
  function Decide(creditScore: real, ratio: real): (b: Branch)
    ensures b == Affordable <==> creditScore == 1.0 && ratio < RatioLimit
    ensures b == Unaffordable <==> creditScore == 1.0 && ratio >= RatioLimit
    ensures b == BadCredit <==> creditScore != 1.0
  {
    if creditScore == 1.0 && ratio < RatioLimit then Affordable
    else if creditScore == 1.0 then Unaffordable
    else BadCredit
  }

  /** The half-open interval [lo, hi) the probability is drawn from in each arm. */
  function BandLow(b: Branch): real {
    match b
    case Affordable => 85.0
    case Unaffordable => 45.0
    case BadCredit => 10.0
  }

  function BandHigh(b: Branch): real {
    match b
    case Affordable => 98.0
    case Unaffordable => 65.0
    case BadCredit => 30.0
  }

  /** A uniform draw from [lo, hi) given a unit draw `u` from [0, 1):
      the way the random library scales its unit sample. */
  function Uniform(lo: real, hi: real, u: real): (x: real)
    requires lo < hi
    requires 0.0 <= u < 1.0
    ensures lo <= x < hi
  {
    lo + Scale(hi - lo, u)
  }

  /** A positive width scaled by a unit draw stays within [0, width). */
  function Scale(width: real, u: real): (s: real)
    requires width > 0.0 && 0.0 <= u < 1.0
    ensures 0.0 <= s < width
  {
    ScaledRange(width, u);
    width * u
  }

  lemma ScaledRange(width: real, u: real)
    requires width > 0.0 && 0.0 <= u < 1.0
    ensures 0.0 <= width * u < width
  {
    PositiveProduct(width, 1.0 - u);
    Distribute(width, u);
    assert width * u < width;
    if u > 0.0 {
      PositiveProduct(width, u);
    }
  }

  lemma PositiveProduct(x: real, y: real)
    requires x > 0.0 && y > 0.0
    ensures x * y > 0.0
  {
  }

  lemma SubtractMul(a: real, b: real, t: real)
    ensures (a - b) * t == a * t - b * t
  {
  }

  lemma Distribute(w: real, u: real)
    ensures w * (1.0 - u) == w - w * u
  {
  }

  /** The eligibility check, with the random draw supplied as `u`. */
  function Assess(a: Applicant, u: real): (r: Assessment)
    requires 0.0 <= u < 1.0
    ensures r.totalIncome == a.income + a.coapplicantIncome
    ensures r.approved ==> r.creditScore == 1.0 && r.ratio < RatioLimit
    ensures 10.0 <= r.probability < 98.0
  {
    var score := CreditScore(a.creditLabel);
    var total := a.income + a.coapplicantIncome;
    var ratio := Ratio(a.loanThousands, total);
    var b := Decide(score, ratio);
    Assessment(score, total, ratio, b == Affordable, Uniform(BandLow(b), BandHigh(b), u))
  }

  /** The colours and texts of the result card. The credit-check cell is
      painted with the status colour, so it is not part of this record. */
  function Render(r: Assessment): (d: Display)
    ensures d.statusText == "APPROVED" <==> r.approved
    ensures d.statusColor == Green <==> r.approved
    ensures d.passFail == "PASS" <==> r.creditScore == 1.0
    ensures d.ratioColor == Green <==> r.ratio < RatioLimit
  {
    Display(
      if r.approved then Green else Red,
      if r.approved then "APPROVED" else "REJECTED",
      if r.creditScore == 1.0 then "PASS" else "FAIL",
      if r.ratio < RatioLimit then Green else Red)
  }

  /** Recovers the arm from a probability: the three bands are disjoint. */
  function BranchOfProbability(p: real): Branch {
    if p >= 85.0 then Affordable
    else if p >= 45.0 then Unaffordable
    else BadCredit
  }

  // ---------------------------------------------------------------------
  // Properties

  /** The two offered labels score as their names say. */
  lemma CreditLabels()
    ensures CreditScore(ClearLabel) == 1.0
    ensures CreditScore(DebtsLabel) == 0.0
  {
    assert OccursAt(ClearLabel, "1.0", 7);
    forall i | 0 <= i && i + 3 <= |DebtsLabel| ensures !OccursAt(DebtsLabel, "1.0", i) {
      assert DebtsLabel[i..i + 3][0] == DebtsLabel[i] != '1';
    }
  }

  /** Without positive income the ratio is the sentinel; with it, the ratio
      is the loan over the income in thousands. */
  lemma RatioCases(loanThousands: int, totalIncome: int)
    ensures totalIncome <= 0 ==> Ratio(loanThousands, totalIncome) == 100.0
    ensures totalIncome > 0 ==>
      Ratio(loanThousands, totalIncome) == (loanThousands as real) * 1000.0 / (totalIncome as real)
  {
    if totalIncome > 0 {
      var t := totalIncome as real;
      var r := Ratio(loanThousands, totalIncome);
      assert r * t == 1000.0 * (loanThousands as real);
      assert r == r * t / t;
    }
  }

  /** With positive income the threshold needs no division: the ratio is
      below 50 exactly when twenty times the loan is below the income. */
  lemma {:induction false} RatioBelowLimitIff(loanThousands: int, totalIncome: int)
    requires totalIncome > 0
    ensures Ratio(loanThousands, totalIncome) < RatioLimit <==> 20 * loanThousands < totalIncome
  {
    var t := totalIncome as real;
    var l := loanThousands as real;
    var r := Ratio(loanThousands, totalIncome);
    assert r * t == 1000.0 * l;
    if r < RatioLimit {
      PositiveProduct(RatioLimit - r, t);
      SubtractMul(RatioLimit, r, t);
      assert 1000.0 * l < 50.0 * t;
    } else if r > RatioLimit {
      PositiveProduct(r - RatioLimit, t);
      SubtractMul(r, RatioLimit, t);
      assert 1000.0 * l > 50.0 * t;
    } else {
      assert 1000.0 * l == 50.0 * t;
    }
  }

  /** Approval happens exactly when the label carries "1.0" and twenty times
      the loan is below a positive combined income. */
  lemma ApprovedIff(a: Applicant, u: real)
    requires 0.0 <= u < 1.0
    ensures Assess(a, u).approved <==>
      (exists i :: OccursAt(a.creditLabel, "1.0", i)) &&
      a.income + a.coapplicantIncome > 0 &&
      20 * a.loanThousands < a.income + a.coapplicantIncome
  {
    var total := a.income + a.coapplicantIncome;
    if total > 0 {
      RatioBelowLimitIff(a.loanThousands, total);
    }
  }

  /** No positive combined income, no approval: the sentinel is past the limit. */
  lemma NoIncomeNeverApproved(a: Applicant, u: real)
    requires 0.0 <= u < 1.0
    requires a.income + a.coapplicantIncome <= 0
    ensures Assess(a, u).ratio == 100.0
    ensures !Assess(a, u).approved
  {
  }

  /** Bad credit is rejected with a probability in [10, 30), whatever the
      incomes and the loan. */
  lemma BadCreditRejected(a: Applicant, u: real)
    requires 0.0 <= u < 1.0
    requires CreditScore(a.creditLabel) == 0.0
    ensures !Assess(a, u).approved
    ensures 10.0 <= Assess(a, u).probability < 30.0
  {
  }

  /** The property area is never consulted. */
  lemma AreaIrrelevant(a: Applicant, other: Area, u: real)
    requires 0.0 <= u < 1.0
    ensures Assess(a.(area := other), u) == Assess(a, u)
  {
  }

  /** Each arm draws from its own band, and the approval flag is set by the
      first arm only. */
  lemma ProbabilityInBand(a: Applicant, u: real)
    requires 0.0 <= u < 1.0
    ensures var r := Assess(a, u);
      var b := Decide(r.creditScore, r.ratio);
      && (r.approved <==> b == Affordable)
      && BandLow(b) <= r.probability < BandHigh(b)
      && (b == Affordable ==> 85.0 <= r.probability < 98.0)
      && (b == Unaffordable ==> 45.0 <= r.probability < 65.0)
      && (b == BadCredit ==> 10.0 <= r.probability < 30.0)
  {
  }

  /** Clear credit with a positive income above twenty times the loan is
      approved with a probability in [85, 98). */
  lemma AffordableApproved(a: Applicant, u: real)
    requires 0.0 <= u < 1.0
    requires CreditScore(a.creditLabel) == 1.0
    requires a.income + a.coapplicantIncome > 0
    requires 20 * a.loanThousands < a.income + a.coapplicantIncome
    ensures Assess(a, u).approved
    ensures 85.0 <= Assess(a, u).probability < 98.0
  {
    RatioBelowLimitIff(a.loanThousands, a.income + a.coapplicantIncome);
    ProbabilityInBand(a, u);
  }

  /** Clear credit without a positive income above twenty times the loan is
      rejected with a probability in [45, 65). */
  lemma ClearCreditUnaffordableRejected(a: Applicant, u: real)
    requires 0.0 <= u < 1.0
    requires CreditScore(a.creditLabel) == 1.0
    requires a.income + a.coapplicantIncome <= 0
          || 20 * a.loanThousands >= a.income + a.coapplicantIncome
    ensures !Assess(a, u).approved
    ensures 45.0 <= Assess(a, u).probability < 65.0
  {
    var total := a.income + a.coapplicantIncome;
    if total > 0 {
      RatioBelowLimitIff(a.loanThousands, total);
    }
    ProbabilityInBand(a, u);
  }

  /** The probability tells which arm ran. */
  lemma ProbabilityIdentifiesBranch(a: Applicant, u: real)
    requires 0.0 <= u < 1.0
    ensures var r := Assess(a, u);
      BranchOfProbability(r.probability) == Decide(r.creditScore, r.ratio)
  {
    ProbabilityInBand(a, u);
  }

  /** Two assessments with the same probability took the same arm. */
  lemma SameProbabilitySameBranch(a: Applicant, u: real, b: Applicant, v: real)
    requires 0.0 <= u < 1.0 && 0.0 <= v < 1.0
    requires Assess(a, u).probability == Assess(b, v).probability
    ensures Decide(Assess(a, u).creditScore, Assess(a, u).ratio)
         == Decide(Assess(b, v).creditScore, Assess(b, v).ratio)
  {
    ProbabilityIdentifiesBranch(a, u);
    ProbabilityIdentifiesBranch(b, v);
  }

  /** The card, read in terms of the form's inputs: "APPROVED" exactly when
      the label carries "1.0" and twenty times the loan is below a positive
      combined income; "PASS" exactly when the label carries "1.0"; a green
      ratio exactly when the income is positive and twenty times the loan is
      below it. */
  lemma DisplayAgrees(a: Applicant, u: real)
    requires 0.0 <= u < 1.0
    ensures var d := Render(Assess(a, u)); var total := a.income + a.coapplicantIncome;
      && (d.statusText == "APPROVED" <==>
            (exists i :: OccursAt(a.creditLabel, "1.0", i)) && total > 0 && 20 * a.loanThousands < total)
      && (d.passFail == "PASS" <==> exists i :: OccursAt(a.creditLabel, "1.0", i))
      && (d.ratioColor == Green <==> total > 0 && 20 * a.loanThousands < total)
  {
    ApprovedIff(a, u);
    var total := a.income + a.coapplicantIncome;
    if total > 0 {
      RatioBelowLimitIff(a.loanThousands, total);
    }
  }

  /** The form's defaults with a clear history: ratio 24, approved. */
  lemma DefaultsApproved(u: real)
    requires 0.0 <= u < 1.0
    ensures var r := Assess(Applicant(5000, 0, 120, ClearLabel, Urban), u);
      r.ratio == 24.0 && r.approved && 85.0 <= r.probability < 98.0
  {
    var a := Applicant(5000, 0, 120, ClearLabel, Urban);
    CreditLabels();
    assert CreditScore(a.creditLabel) == 1.0;
    assert Ratio(120, 5000) == 24.0;
    ProbabilityInBand(a, u);
  }

  /** Halving the income doubles the ratio past the limit: rejected. */
  lemma LowIncomeRejected(u: real)
    requires 0.0 <= u < 1.0
    ensures var r := Assess(Applicant(2000, 0, 120, ClearLabel, Urban), u);
      r.ratio == 60.0 && !r.approved && 45.0 <= r.probability < 65.0
  {
    var a := Applicant(2000, 0, 120, ClearLabel, Urban);
    CreditLabels();
    assert CreditScore(a.creditLabel) == 1.0;
    assert Ratio(120, 2000) == 60.0;
    ProbabilityInBand(a, u);
  }

  /** The defaults with debts: rejected in the lowest band. */
  lemma DefaultsWithDebtsRejected(u: real)
    requires 0.0 <= u < 1.0
    ensures var r := Assess(Applicant(5000, 0, 120, DebtsLabel, Urban), u);
      r.ratio == 24.0 && !r.approved && 10.0 <= r.probability < 30.0
  {
    var a := Applicant(5000, 0, 120, DebtsLabel, Urban);
    CreditLabels();
    assert CreditScore(a.creditLabel) == 0.0;
    assert Ratio(120, 5000) == 24.0;
    ProbabilityInBand(a, u);
  }

  /** Nothing stops a negative loan: with a clear history and positive
      income it is always approved. */
  lemma NegativeLoanApproved(a: Applicant, u: real)
    requires 0.0 <= u < 1.0
    requires CreditScore(a.creditLabel) == 1.0
    requires a.income + a.coapplicantIncome > 0 && a.loanThousands < 0
    ensures Assess(a, u).approved
  {
    RatioBelowLimitIff(a.loanThousands, a.income + a.coapplicantIncome);
  }
}
