/**
 * The heuristic credit scorer (backend/prediction_helper.py): risk points
 * from threshold bands on the applicant's figures, a default probability
 * capped at 0.99, a credit score on the 300..900 scale and a rating band.
 *
 * Amounts and ratios are exact reals; the source computes with IEEE doubles.
 */
module PredictionHelper {

  /** The prepared input of the scorer: the request's figures plus the loan-to-income ratio. */
  datatype InputData = InputData(
    age: int,
    income: real,
    loanAmount: real,
    loanTenureMonths: int,
    avgDpdPerDelinquency: real,
    delinquencyRatio: real,
    creditUtilizationRatio: real,
    numOpenAccounts: int,
    loanToIncome: real,
    residenceType: string,
    loanPurpose: string,
    loanType: string)

  datatype Rating = Poor | Average | Good | Excellent | Undefined

  /** Loan amount over income, or 0 when the income is not positive. */
  function LoanToIncome(loanAmount: real, income: real): (ratio: real)
    ensures income > 0.0 ==> ratio * income == loanAmount
    ensures income <= 0.0 ==> ratio == 0.0
  {
    if income > 0.0 then loanAmount / income else 0.0
  }

  /** Collects the eleven inputs, in the order `predict` passes them, and adds the loan-to-income ratio. */
  function PrepareInput(
    age: int, income: real, loanAmount: real, loanTenureMonths: int,
    avgDpdPerDelinquency: real, delinquencyRatio: real, creditUtilizationRatio: real,
    numOpenAccounts: int, residenceType: string, loanPurpose: string, loanType: string): (d: InputData)
    ensures d.loanToIncome == LoanToIncome(loanAmount, income)
    ensures d.age == age && d.income == income && d.loanAmount == loanAmount
    ensures d.loanTenureMonths == loanTenureMonths && d.avgDpdPerDelinquency == avgDpdPerDelinquency
    ensures d.delinquencyRatio == delinquencyRatio && d.creditUtilizationRatio == creditUtilizationRatio
    ensures d.numOpenAccounts == numOpenAccounts && d.residenceType == residenceType
    ensures d.loanPurpose == loanPurpose && d.loanType == loanType
  {
    InputData(age, income, loanAmount, loanTenureMonths, avgDpdPerDelinquency,
              delinquencyRatio, creditUtilizationRatio, numOpenAccounts,
              LoanToIncome(loanAmount, income), residenceType, loanPurpose, loanType)
  }

  // ------------------------------------------------------- risk factors
  // Each factor takes the first band that matches, so it adds one amount at most.

  /** Younger applicants are riskier. */
  function AgeRisk(age: int): nat
  {
    if age < 25 then 15 else if age < 35 then 10 else if age < 50 then 5 else 0
  }

  function LoanToIncomeRisk(ratio: real): nat
  {
    if ratio > 5.0 then 25 else if ratio > 3.0 then 15 else if ratio > 2.0 then 10 else 0
  }

  function DelinquencyRisk(ratio: real): nat
  {
    if ratio > 50.0 then 30 else if ratio > 30.0 then 20 else if ratio > 10.0 then 10 else 0
  }

  function UtilizationRisk(ratio: real): nat
  {
    if ratio > 80.0 then 20 else if ratio > 50.0 then 10 else if ratio > 30.0 then 5 else 0
  }

  function DpdRisk(avgDpd: real): nat
  {
    if avgDpd > 30.0 then 25 else if avgDpd > 15.0 then 15 else if avgDpd > 5.0 then 8 else 0
  }

  /** More than three open accounts, or fewer than two, add risk. */
  function OpenAccountsRisk(accounts: int): nat
  {
    if accounts > 3 then 10 else if accounts < 2 then 5 else 0
  }

  /** Owned (or any other value) adds nothing. */
  function ResidenceRisk(residenceType: string): nat
  {
    if residenceType == "Rented" then 10 else if residenceType == "Mortgage" then 5 else 0
  }

  /** Secured (or any other value) adds nothing. */
  function LoanTypeRisk(loanType: string): nat
  {
    if loanType == "Unsecured" then 15 else 0
  }

  /** The total of the eight factors' points. */
  function RiskScore(d: InputData): (risk: nat)
    ensures risk <= 150
  {
    AgeRisk(d.age) + LoanToIncomeRisk(d.loanToIncome) + DelinquencyRisk(d.delinquencyRatio)
    + UtilizationRisk(d.creditUtilizationRatio) + DpdRisk(d.avgDpdPerDelinquency)
    + OpenAccountsRisk(d.numOpenAccounts) + ResidenceRisk(d.residenceType) + LoanTypeRisk(d.loanType)
  }

  // ------------------------------------------------- probability and score

  /** The risk score read as a probability in percent, capped at 0.99. */
  function DefaultProbability(risk: nat): (p: real)
    ensures 0.0 <= p <= 0.99
    ensures risk < 99 ==> p * 100.0 == risk as real
    ensures risk >= 99 ==> p == 0.99
  {
    var q := risk as real / 100.0;
    if q < 0.99 then q else 0.99
  }

  /** Conversion of a real to an integer by dropping the fraction (toward zero). */
  function Truncate(x: real): (n: int)
    ensures x >= 0.0 ==> n as real <= x < n as real + 1.0
    ensures x < 0.0 ==> n as real - 1.0 < x <= n as real
  {
    if x >= 0.0 then x.Floor else -((-x).Floor)
  }

  /** The score on the 300..900 scale for a given default probability. */
  function ScoreFromProbability(p: real): int
  {
    Truncate(300.0 + (1.0 - p) * 600.0)
  }

  function GetRating(score: int): (rating: Rating)
    ensures rating == Undefined <==> score < 300 || score > 900
  {
    if 300 <= score < 500 then Poor
    else if 500 <= score < 650 then Average
    else if 650 <= score < 750 then Good
    else if 750 <= score <= 900 then Excellent
    else Undefined
  }

  /** The position of a rating in the order Poor < Average < Good < Excellent. */
  function RatingRank(rating: Rating): nat
  {
    match rating
    case Undefined => 0
    case Poor => 1
    case Average => 2
    case Good => 3
    case Excellent => 4
  }

  /** Probability, score and rating of a prepared input, as one value. */
  function Assess(d: InputData): (real, int, Rating)
  {
    var p := DefaultProbability(RiskScore(d));
    var score := ScoreFromProbability(p);
    (p, score, GetRating(score))
  }

  // ----------------------------------------------------------- the scorer

  /** Derives probability, score and rating from the risk points the factors add up to. */
  method CalculateCreditScore(d: InputData) returns (probability: real, score: int, rating: Rating)
    ensures (probability, score, rating) == Assess(d)
    ensures 306 <= score <= 900 && score == 900 - 6 * (if RiskScore(d) < 99 then RiskScore(d) else 99)
    ensures rating != Undefined
  {
    var risk := AccumulateRisk(d);
    probability := DefaultProbability(risk);
    score := ScoreFromProbability(probability);
    CreditScoreClosedForm(risk);
    rating := GetRating(score);
  }

  /** The first phase of the scorer: adds up the risk points factor by factor, first matching band only. */
  method AccumulateRisk(d: InputData) returns (risk: int)
    ensures risk == RiskScore(d)
  {
    risk := 0;

    // Each block adds the points of one factor; the ghost `before` records the total it started from.
    ghost var before := risk;
    if d.age < 25 {
      risk := risk + 15;
    } else if d.age < 35 {
      risk := risk + 10;
    } else if d.age < 50 {
      risk := risk + 5;
    }
    assert risk == before + AgeRisk(d.age);

    before := risk;
    var loanToIncome := d.loanToIncome;
    if loanToIncome > 5.0 {
      risk := risk + 25;
    } else if loanToIncome > 3.0 {
      risk := risk + 15;
    } else if loanToIncome > 2.0 {
      risk := risk + 10;
    }
    assert risk == before + LoanToIncomeRisk(loanToIncome);

    before := risk;
    if d.delinquencyRatio > 50.0 {
      risk := risk + 30;
    } else if d.delinquencyRatio > 30.0 {
      risk := risk + 20;
    } else if d.delinquencyRatio > 10.0 {
      risk := risk + 10;
    }
    assert risk == before + DelinquencyRisk(d.delinquencyRatio);

    before := risk;
    if d.creditUtilizationRatio > 80.0 {
      risk := risk + 20;
    } else if d.creditUtilizationRatio > 50.0 {
      risk := risk + 10;
    } else if d.creditUtilizationRatio > 30.0 {
      risk := risk + 5;
    }
    assert risk == before + UtilizationRisk(d.creditUtilizationRatio);

    before := risk;
    if d.avgDpdPerDelinquency > 30.0 {
      risk := risk + 25;
    } else if d.avgDpdPerDelinquency > 15.0 {
      risk := risk + 15;
    } else if d.avgDpdPerDelinquency > 5.0 {
      risk := risk + 8;
    }
    assert risk == before + DpdRisk(d.avgDpdPerDelinquency);

    before := risk;
    if d.numOpenAccounts > 3 {
      risk := risk + 10;
    } else if d.numOpenAccounts < 2 {
      risk := risk + 5;
    }
    assert risk == before + OpenAccountsRisk(d.numOpenAccounts);

    before := risk;
    if d.residenceType == "Rented" {
      risk := risk + 10;
    } else if d.residenceType == "Mortgage" {
      risk := risk + 5;
    }
    assert risk == before + ResidenceRisk(d.residenceType);

    before := risk;
    if d.loanType == "Unsecured" {
      risk := risk + 15;
    }
    assert risk == before + LoanTypeRisk(d.loanType);
  }

  /** The scorer applied to the prepared input, arguments in the same order. */
  method Predict(
    age: int, income: real, loanAmount: real, loanTenureMonths: int,
    avgDpdPerDelinquency: real, delinquencyRatio: real, creditUtilizationRatio: real,
    numOpenAccounts: int, residenceType: string, loanPurpose: string, loanType: string)
    returns (probability: real, score: int, rating: Rating)
    ensures (probability, score, rating) == Assess(PrepareInput(
      age, income, loanAmount, loanTenureMonths, avgDpdPerDelinquency, delinquencyRatio,
      creditUtilizationRatio, numOpenAccounts, residenceType, loanPurpose, loanType))
    ensures 306 <= score <= 900 && rating != Undefined
  {
    var inputData := PrepareInput(
      age, income, loanAmount, loanTenureMonths, avgDpdPerDelinquency, delinquencyRatio,
      creditUtilizationRatio, numOpenAccounts, residenceType, loanPurpose, loanType);
    probability, score, rating := CalculateCreditScore(inputData);
  }

  // ---------------------------------------------------------------- lemmas

  /** Over exact reals the score is 900 less 6 points per risk point, down to 306 at risk 99 and above. */
  lemma CreditScoreClosedForm(risk: nat)
    ensures ScoreFromProbability(DefaultProbability(risk)) == 900 - 6 * (if risk < 99 then risk else 99)
  {
    var p := DefaultProbability(risk);
    var m := if risk < 99 then risk else 99;
    assert p * 100.0 == m as real;
    assert 300.0 + (1.0 - p) * 600.0 == (900 - 6 * m) as real;
  }

  /** Every score the scorer can produce lies in [306, 900] and has a defined rating. */
  lemma CreditScoreBounds(d: InputData)
    ensures 306 <= Assess(d).1 <= 900
    ensures Assess(d).2 != Undefined
  {
    CreditScoreClosedForm(RiskScore(d));
  }

  /** More risk never gives a higher score. */
  lemma ScoreNonIncreasingInRisk(risk1: nat, risk2: nat)
    requires risk1 <= risk2
    ensures ScoreFromProbability(DefaultProbability(risk2)) <= ScoreFromProbability(DefaultProbability(risk1))
  {
    CreditScoreClosedForm(risk1);
    CreditScoreClosedForm(risk2);
  }

  /** A higher score never gives a worse rating. */
  lemma RatingMonotone(score1: int, score2: int)
    requires 300 <= score1 <= score2 <= 900
    ensures RatingRank(GetRating(score1)) <= RatingRank(GetRating(score2))
  {
  }

  /** The rating is ordered like the score. */
  lemma RatingBands(d: InputData)
    ensures var (_, score, rating) := Assess(d);
      && (rating == Poor <==> score < 500)
      && (rating == Average <==> 500 <= score < 650)
      && (rating == Good <==> 650 <= score < 750)
      && (rating == Excellent <==> 750 <= score)
  {
    CreditScoreBounds(d);
  }

  /** Residence: owned adds nothing, a mortgage 5 points and renting 10. */
  lemma ResidenceRiskPoints(d: InputData)
    ensures RiskScore(d.(residenceType := "Mortgage")) == RiskScore(d.(residenceType := "Owned")) + 5
    ensures RiskScore(d.(residenceType := "Rented")) == RiskScore(d.(residenceType := "Owned")) + 10
  {
  }

  /** Loan type: secured adds nothing, unsecured 15 points. */
  lemma LoanTypeRiskPoints(d: InputData)
    ensures RiskScore(d.(loanType := "Unsecured")) == RiskScore(d.(loanType := "Secured")) + 15
  {
  }

  /** Being older, or having a lower ratio or fewer days past due, never adds risk. */
  lemma RiskMonotoneInFigures(d: InputData, e: InputData)
    requires e.age >= d.age
    requires e.loanToIncome <= d.loanToIncome
    requires e.delinquencyRatio <= d.delinquencyRatio
    requires e.creditUtilizationRatio <= d.creditUtilizationRatio
    requires e.avgDpdPerDelinquency <= d.avgDpdPerDelinquency
    requires e.numOpenAccounts == d.numOpenAccounts
    requires e.residenceType == d.residenceType && e.loanType == d.loanType
    ensures RiskScore(e) <= RiskScore(d)
    ensures Assess(d).1 <= Assess(e).1
  {
    ScoreNonIncreasingInRisk(RiskScore(e), RiskScore(d));
  }
}
