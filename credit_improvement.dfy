/**
 * The rule-based improvement advisor (backend/credit_improvement.py): an
 * ordered list of suggestions built from the trend between the two most
 * recent applications, the score band, ratio thresholds and a fixed tail,
 * and the dispatch that prefers the language-model advisor when an API key
 * is configured.
 */
module CreditImprovement {
  import opened Wrappers
  import opened Models
  import PredictionHelper

  /** The seventeen suggestions of the rule-based advisor. */
  datatype Advice =
    | ScoreImproved | ScoreDeclined | UtilizationIncreasing | UtilizationDecreasing | DelaysIncreasing
    | CriticalPaymentHistory | PaymentConsistency | MaintainHabits
    | ReduceUtilization | LowerUtilization | PastDelinquencies
    | BuildHistory | ManageAccounts | HighDebtToIncome
    | MonitorReport | DiversifyMix | KeepOldAccounts

  /** The part of the list each advice belongs to. */
  datatype Part = TrendPart | BandPart | UtilizationPart | DelinquencyPart | AccountPart | DebtPart | GeneralPart

  function PartOf(a: Advice): Part
  {
    match a
    case ScoreImproved | ScoreDeclined | UtilizationIncreasing | UtilizationDecreasing | DelaysIncreasing => TrendPart
    case CriticalPaymentHistory | PaymentConsistency | MaintainHabits => BandPart
    case ReduceUtilization | LowerUtilization => UtilizationPart
    case PastDelinquencies => DelinquencyPart
    case BuildHistory | ManageAccounts => AccountPart
    case HighDebtToIncome => DebtPart
    case MonitorReport | DiversifyMix | KeepOldAccounts => GeneralPart
  }

  /** A number interpolated into a description; its printed form is not modelled. */
  datatype Number = IntNumber(i: int) | RealNumber(r: real)

  /** A fixed description, or a template with one interpolated number. */
  datatype Description =
    | Text(text: string)
    | Interpolated(before: string, amount: Number, after: string)

  /**
   * One suggestion record (title, description, priority, icon). A rule's
   * record is fixed by its advice and, for some, one number; the language
   * model's records are arbitrary.
   */
  datatype Suggestion =
    | Rule(advice: Advice, amount: Option<Number>)
    | Generated(title: string, text: string, priority: string, icon: string)
  {
    function Title(): string
    {
      match this
      case Rule(advice, _) => AdviceTitle(advice)
      case Generated(title, _, _, _) => title
    }

    function Priority(): string
    {
      match this
      case Rule(advice, _) => AdvicePriority(advice)
      case Generated(_, _, priority, _) => priority
    }

    function Icon(): string
    {
      match this
      case Rule(advice, _) => AdviceIcon(advice)
      case Generated(_, _, _, icon) => icon
    }

    function Description(): Description
    {
      match this
      case Rule(advice, None) => Text(AdviceText(advice).0)
      case Rule(advice, Some(n)) => Interpolated(AdviceText(advice).0, n, AdviceText(advice).1)
      case Generated(_, text, _, _) => Text(text)
    }
  }

  function AdviceTitle(a: Advice): string
  {
    match a
    case ScoreImproved => "Great Progress! Score Improved"
    case ScoreDeclined => "Score Declined - Immediate Action Needed"
    case UtilizationIncreasing => "Credit Utilization Increasing"
    case UtilizationDecreasing => "Excellent! Utilization Decreasing"
    case DelaysIncreasing => "Payment Delays Increasing"
    case CriticalPaymentHistory => "Critical: Improve Payment History"
    case PaymentConsistency => "Work on Payment Consistency"
    case MaintainHabits => "Maintain Good Habits"
    case ReduceUtilization => "Reduce Credit Utilization"
    case LowerUtilization => "Lower Credit Utilization"
    case PastDelinquencies => "Address Past Delinquencies"
    case BuildHistory => "Build Credit History"
    case ManageAccounts => "Manage Multiple Accounts"
    case HighDebtToIncome => "High Debt-to-Income Ratio"
    case MonitorReport => "Monitor Your Credit Report"
    case DiversifyMix => "Diversify Your Credit Mix"
    case KeepOldAccounts => "Keep Old Accounts Open"
  }

  function AdvicePriority(a: Advice): string
  {
    match a
    case ScoreDeclined | UtilizationIncreasing | DelaysIncreasing | CriticalPaymentHistory
      | ReduceUtilization | PastDelinquencies | HighDebtToIncome => "High"
    case PaymentConsistency | LowerUtilization | BuildHistory | ManageAccounts => "Medium"
    case ScoreImproved | UtilizationDecreasing | MaintainHabits
      | MonitorReport | DiversifyMix | KeepOldAccounts => "Low"
  }

  function AdviceIcon(a: Advice): string
  {
    match a
    case ScoreImproved => "\U{1F389}"
    case ScoreDeclined => "\U{1F6A8}"
    case UtilizationIncreasing => "\U{1F4C8}"
    case UtilizationDecreasing => "\U{2705}"
    case DelaysIncreasing => "\U{26A0}\U{FE0F}"
    case CriticalPaymentHistory => "\U{1F6A8}"
    case PaymentConsistency => "\U{26A0}\U{FE0F}"
    case MaintainHabits => "\U{2705}"
    case ReduceUtilization => "\U{1F4B3}"
    case LowerUtilization => "\U{1F4B3}"
    case PastDelinquencies => "\U{23F0}"
    case BuildHistory => "\U{1F3E6}"
    case ManageAccounts => "\U{1F4CA}"
    case HighDebtToIncome => "\U{1F4C9}"
    case MonitorReport => "\U{1F50D}"
    case DiversifyMix => "\U{1F3AF}"
    case KeepOldAccounts => "\U{1F4C5}"
  }

  /** The description text: the whole of it, or the parts before and after the interpolated number. */
  function AdviceText(a: Advice): (string, string)
  {
    match a
    case ScoreImproved => ("Your credit score increased by ",
      " points from your last application. Keep up the excellent work with your current financial habits!")
    case ScoreDeclined => ("Your credit score dropped by ",
      " points. Review your recent payment history and credit utilization to identify the cause.")
    case UtilizationIncreasing => ("Your credit utilization rose by ",
      "%. This upward trend can hurt your score. Consider paying down balances.")
    case UtilizationDecreasing => ("You've reduced credit utilization by ",
      "%. This positive trend will boost your score over time.")
    case DelaysIncreasing => ("Your delinquency rate increased by ",
      "%. Set up automatic payments to avoid missing due dates.")
    case CriticalPaymentHistory => ("Your credit score is in the critical range. Focus on making all payments on time for the next 6-12 months.", "")
    case PaymentConsistency => ("Your credit score is fair. Maintain consistent on-time payments to improve your score.", "")
    case MaintainHabits => ("Your credit score is good! Keep up your current payment habits.", "")
    case ReduceUtilization => ("Your credit utilization is ",
      "%. Try to keep it below 30% by paying down balances or requesting credit limit increases.")
    case LowerUtilization => ("Your credit utilization is ",
      "%. Aim to keep it below 30% for better credit health.")
    case PastDelinquencies => ("You have past payment delays. Set up automatic payments and payment reminders to avoid future delays.", "")
    case BuildHistory => ("Consider opening a secured credit card or becoming an authorized user to start building credit.", "")
    case ManageAccounts => ("You have multiple open accounts. Ensure all payments are made on time and consider consolidating if needed.", "")
    case HighDebtToIncome => ("Your loan amount is high relative to your income. Focus on increasing income or reducing debt.", "")
    case MonitorReport => ("Check your credit report regularly for errors and dispute any inaccuracies you find.", "")
    case DiversifyMix => ("Having different types of credit (credit cards, loans, etc.) can positively impact your score.", "")
    case KeepOldAccounts => ("Length of credit history matters. Keep your oldest credit accounts open even if you don't use them often.", "")
  }

  /** The figures of the latest application the advisor reads. */
  datatype UserData = UserData(
    creditScore: int,
    income: real,
    loanAmount: real,
    creditUtilizationRatio: real,
    delinquencyRatio: real,
    avgDpdPerDelinquency: real,
    numOpenAccounts: int,
    loanTenureMonths: int)

  function Abs(x: int): nat { if x < 0 then -x else x }
  function AbsReal(x: real): real { if x < 0.0 then -x else x }

  /** The three general suggestions that close every list, in order. */
  const GeneralSuggestions: seq<Suggestion> :=
    [Rule(MonitorReport, None), Rule(DiversifyMix, None), Rule(KeepOldAccounts, None)]

  // ------------------------------------------- the list, part by part

  function ScoreTrend(scoreChange: int): seq<Suggestion>
  {
    if scoreChange > 0 then [Rule(ScoreImproved, Some(IntNumber(scoreChange)))]
    else if scoreChange < -20 then [Rule(ScoreDeclined, Some(IntNumber(Abs(scoreChange))))]
    else []
  }

  function UtilizationTrend(utilChange: real): seq<Suggestion>
  {
    if utilChange > 10.0 then [Rule(UtilizationIncreasing, Some(RealNumber(utilChange)))]
    else if utilChange < -10.0 then [Rule(UtilizationDecreasing, Some(RealNumber(AbsReal(utilChange))))]
    else []
  }

  function DelinquencyTrend(delinqChange: real): seq<Suggestion>
  {
    if delinqChange > 5.0 then [Rule(DelaysIncreasing, Some(RealNumber(delinqChange)))] else []
  }

  /** Trend suggestions compare the latest application (index 0) with the one before it (index 1). */
  function TrendSuggestions(apps: seq<LoanApplication>): seq<Suggestion>
  {
    if |apps| > 1 then
      var latest, previous := apps[0], apps[1];
      ScoreTrend(latest.creditScore - previous.creditScore)
      + UtilizationTrend(latest.request.creditUtilizationRatio - previous.request.creditUtilizationRatio)
      + DelinquencyTrend(latest.request.delinquencyRatio - previous.request.delinquencyRatio)
    else []
  }

  function ScoreBandSuggestion(creditScore: int): Suggestion
  {
    if creditScore < 500 then Rule(CriticalPaymentHistory, None)
    else if creditScore < 650 then Rule(PaymentConsistency, None)
    else Rule(MaintainHabits, None)
  }

  function UtilizationSuggestions(util: real): seq<Suggestion>
  {
    if util > 50.0 then [Rule(ReduceUtilization, Some(RealNumber(util)))]
    else if util > 30.0 then [Rule(LowerUtilization, Some(RealNumber(util)))]
    else []
  }

  function DelinquencySuggestions(delinquencyRatio: real, avgDpd: real): seq<Suggestion>
  {
    if delinquencyRatio > 20.0 || avgDpd > 15.0 then [Rule(PastDelinquencies, None)] else []
  }

  function AccountSuggestions(numAccounts: int): seq<Suggestion>
  {
    if numAccounts == 0 then [Rule(BuildHistory, None)]
    else if numAccounts > 5 then [Rule(ManageAccounts, None)]
    else []
  }

  function DebtSuggestions(loanAmount: real, income: real): seq<Suggestion>
  {
    if PredictionHelper.LoanToIncome(loanAmount, income) > 3.0 then [Rule(HighDebtToIncome, None)] else []
  }

  /** The default advice: every part in the order the advisor appends it. */
  function DefaultSuggestions(creditScore: int, data: UserData, apps: seq<LoanApplication>): seq<Suggestion>
  {
    TrendSuggestions(apps)
    + [ScoreBandSuggestion(creditScore)]
    + UtilizationSuggestions(data.creditUtilizationRatio)
    + DelinquencySuggestions(data.delinquencyRatio, data.avgDpdPerDelinquency)
    + AccountSuggestions(data.numOpenAccounts)
    + DebtSuggestions(data.loanAmount, data.income)
    + [Rule(MonitorReport, None)] + [Rule(DiversifyMix, None)] + [Rule(KeepOldAccounts, None)]
  }

  // ---------------------------------------------------------- the advisor

  /** Builds the default advice by appending suggestions one at a time. */
  method GetDefaultSuggestions(creditScore: int, data: UserData, apps: seq<LoanApplication>)
    returns (suggestions: seq<Suggestion>)
    ensures suggestions == DefaultSuggestions(creditScore, data, apps)
  {
    suggestions := [];

    // Each block appends one part of DefaultSuggestions; the ghost snapshots record the list after each part.
    if |apps| > 1 {
      var latest, previous := apps[0], apps[1];
      var scoreChange := latest.creditScore - previous.creditScore;
      var utilChange := latest.request.creditUtilizationRatio - previous.request.creditUtilizationRatio;
      var delinqChange := latest.request.delinquencyRatio - previous.request.delinquencyRatio;

      if scoreChange > 0 {
        suggestions := suggestions + [Rule(ScoreImproved, Some(IntNumber(scoreChange)))];
      } else if scoreChange < -20 {
        suggestions := suggestions + [Rule(ScoreDeclined, Some(IntNumber(Abs(scoreChange))))];
      }
      assert suggestions == ScoreTrend(scoreChange);

      ghost var before := suggestions;
      if utilChange > 10.0 {
        suggestions := suggestions + [Rule(UtilizationIncreasing, Some(RealNumber(utilChange)))];
      } else if utilChange < -10.0 {
        suggestions := suggestions + [Rule(UtilizationDecreasing, Some(RealNumber(AbsReal(utilChange))))];
      }
      assert suggestions == before + UtilizationTrend(utilChange);

      before := suggestions;
      if delinqChange > 5.0 {
        suggestions := suggestions + [Rule(DelaysIncreasing, Some(RealNumber(delinqChange)))];
      }
      assert suggestions == before + DelinquencyTrend(delinqChange);
    }
    assert suggestions == TrendSuggestions(apps);
    ghost var trend := suggestions;

    if creditScore < 500 {
      suggestions := suggestions + [Rule(CriticalPaymentHistory, None)];
    } else if creditScore < 650 {
      suggestions := suggestions + [Rule(PaymentConsistency, None)];
    } else {
      suggestions := suggestions + [Rule(MaintainHabits, None)];
    }
    assert suggestions == trend + [ScoreBandSuggestion(creditScore)];
    ghost var band := suggestions;

    var creditUtil := data.creditUtilizationRatio;
    if creditUtil > 50.0 {
      suggestions := suggestions + [Rule(ReduceUtilization, Some(RealNumber(creditUtil)))];
    } else if creditUtil > 30.0 {
      suggestions := suggestions + [Rule(LowerUtilization, Some(RealNumber(creditUtil)))];
    }
    assert suggestions == band + UtilizationSuggestions(creditUtil);
    ghost var utilization := suggestions;

    var delinquencyRatio, avgDpd := data.delinquencyRatio, data.avgDpdPerDelinquency;
    if delinquencyRatio > 20.0 || avgDpd > 15.0 {
      suggestions := suggestions + [Rule(PastDelinquencies, None)];
    }
    assert suggestions == utilization + DelinquencySuggestions(delinquencyRatio, avgDpd);
    ghost var delinquency := suggestions;

    var numAccounts := data.numOpenAccounts;
    if numAccounts == 0 {
      suggestions := suggestions + [Rule(BuildHistory, None)];
    } else if numAccounts > 5 {
      suggestions := suggestions + [Rule(ManageAccounts, None)];
    }
    assert suggestions == delinquency + AccountSuggestions(numAccounts);
    ghost var accounts := suggestions;

    var loanAmount, income := data.loanAmount, data.income;
    var ltiRatio := if income > 0.0 then loanAmount / income else 0.0;
    if ltiRatio > 3.0 {
      suggestions := suggestions + [Rule(HighDebtToIncome, None)];
    }
    assert suggestions == accounts + DebtSuggestions(loanAmount, income);

    suggestions := suggestions + [Rule(MonitorReport, None)];
    suggestions := suggestions + [Rule(DiversifyMix, None)];
    suggestions := suggestions + [Rule(KeepOldAccounts, None)];
    DefaultSuggestionsInParts(creditScore, data, apps, trend, band, utilization, delinquency, accounts, suggestions);
  }

  /** The snapshots the advisor passes through, one part at a time, end in the default advice. */
  lemma DefaultSuggestionsInParts(
    creditScore: int, data: UserData, apps: seq<LoanApplication>,
    trend: seq<Suggestion>, band: seq<Suggestion>, utilization: seq<Suggestion>,
    delinquency: seq<Suggestion>, accounts: seq<Suggestion>, all: seq<Suggestion>)
    requires trend == TrendSuggestions(apps)
    requires band == trend + [ScoreBandSuggestion(creditScore)]
    requires utilization == band + UtilizationSuggestions(data.creditUtilizationRatio)
    requires delinquency == utilization + DelinquencySuggestions(data.delinquencyRatio, data.avgDpdPerDelinquency)
    requires accounts == delinquency + AccountSuggestions(data.numOpenAccounts)
    requires all == accounts + DebtSuggestions(data.loanAmount, data.income)
      + [Rule(MonitorReport, None)] + [Rule(DiversifyMix, None)] + [Rule(KeepOldAccounts, None)]
    ensures all == DefaultSuggestions(creditScore, data, apps)
  {
  }

  /** True when the configured key selects the language-model advisor. */
  predicate UsesLanguageModel(apiKey: Option<string>)
  {
    apiKey.Some? && apiKey.value != "" && apiKey.value != "your_gemini_api_key_here"
  }

  /**
   * The language-model advisor when an API key is configured (it is a
   * parameter here: an opaque function of the score, the data, the key and
   * the applications), the default advice otherwise.
   */
  method GetCreditImprovementSuggestions(
    creditScore: int, data: UserData, apps: seq<LoanApplication>, apiKey: Option<string>,
    languageModel: (int, UserData, string, seq<LoanApplication>) -> seq<Suggestion>)
    returns (suggestions: seq<Suggestion>)
    ensures UsesLanguageModel(apiKey) ==> suggestions == languageModel(creditScore, data, apiKey.value, apps)
    ensures !UsesLanguageModel(apiKey) ==> suggestions == DefaultSuggestions(creditScore, data, apps)
  {
    if apiKey.Some? && apiKey.value != "" && apiKey.value != "your_gemini_api_key_here" {
      suggestions := languageModel(creditScore, data, apiKey.value, apps);
    } else {
      suggestions := GetDefaultSuggestions(creditScore, data, apps);
    }
  }
  // ---------------------------------------------------------------- lemmas

  /** The advice of each rule-based suggestion in a list, in order. */
  function Advices(s: seq<Suggestion>): seq<Advice>
  {
    if s == [] then []
    else (if s[0].Rule? then [s[0].advice] else []) + Advices(s[1..])
  }

  /** How many entries of `advices` belong to part `p`. */
  function CountInPart(advices: seq<Advice>, p: Part): nat
  {
    if advices == [] then 0
    else (if PartOf(advices[0]) == p then 1 else 0) + CountInPart(advices[1..], p)
  }

  lemma {:induction false} AdvicesAppend(a: seq<Suggestion>, b: seq<Suggestion>)
    ensures Advices(a + b) == Advices(a) + Advices(b)
  {
    if a == [] {
      assert a + b == b;
    } else {
      var head := if a[0].Rule? then [a[0].advice] else [];
      assert (a + b)[0] == a[0];
      assert (a + b)[1..] == a[1..] + b;
      assert Advices(a + b) == head + Advices(a[1..] + b);
      AdvicesAppend(a[1..], b);
    }
  }

  lemma {:induction false} CountInPartAppend(a: seq<Advice>, b: seq<Advice>, p: Part)
    ensures CountInPart(a + b, p) == CountInPart(a, p) + CountInPart(b, p)
  {
    if a == [] {
      assert a + b == b;
    } else {
      assert (a + b)[1..] == a[1..] + b;
      CountInPartAppend(a[1..], b, p);
    }
  }

  lemma AdvicesOfOne(x: Suggestion)
    ensures Advices([x]) == if x.Rule? then [x.advice] else []
  {
    assert [x][1..] == [];
  }

  /** The advice of the trend part: one entry per trend rule that fired. */
  lemma TrendAdvices(apps: seq<LoanApplication>)
    ensures |apps| <= 1 ==> Advices(TrendSuggestions(apps)) == []
    ensures |apps| > 1 ==>
      var latest, previous := apps[0], apps[1];
      var scoreChange := latest.creditScore - previous.creditScore;
      var utilChange := latest.request.creditUtilizationRatio - previous.request.creditUtilizationRatio;
      var delinqChange := latest.request.delinquencyRatio - previous.request.delinquencyRatio;
      Advices(TrendSuggestions(apps)) ==
        (if scoreChange > 0 then [ScoreImproved] else if scoreChange < -20 then [ScoreDeclined] else [])
        + (if utilChange > 10.0 then [UtilizationIncreasing] else if utilChange < -10.0 then [UtilizationDecreasing] else [])
        + (if delinqChange > 5.0 then [DelaysIncreasing] else [])
  {
    if |apps| > 1 {
      var latest, previous := apps[0], apps[1];
      var scoreTrend := ScoreTrend(latest.creditScore - previous.creditScore);
      var utilTrend := UtilizationTrend(latest.request.creditUtilizationRatio - previous.request.creditUtilizationRatio);
      var delinqTrend := DelinquencyTrend(latest.request.delinquencyRatio - previous.request.delinquencyRatio);
      AdvicesAppend(scoreTrend + utilTrend, delinqTrend);
      AdvicesAppend(scoreTrend, utilTrend);
      if scoreTrend != [] { AdvicesOfOne(scoreTrend[0]); }
      if utilTrend != [] { AdvicesOfOne(utilTrend[0]); }
      if delinqTrend != [] { AdvicesOfOne(delinqTrend[0]); }
    }
  }

  /** The advice of the whole default list is the advice of its parts, in order. */
  lemma DefaultAdvicesByPart(creditScore: int, data: UserData, apps: seq<LoanApplication>)
    ensures Advices(DefaultSuggestions(creditScore, data, apps)) ==
      Advices(TrendSuggestions(apps))
      + Advices([ScoreBandSuggestion(creditScore)])
      + Advices(UtilizationSuggestions(data.creditUtilizationRatio))
      + Advices(DelinquencySuggestions(data.delinquencyRatio, data.avgDpdPerDelinquency))
      + Advices(AccountSuggestions(data.numOpenAccounts))
      + Advices(DebtSuggestions(data.loanAmount, data.income))
      + Advices([Rule(MonitorReport, None)]) + Advices([Rule(DiversifyMix, None)])
      + Advices([Rule(KeepOldAccounts, None)])
  {
    var trend := TrendSuggestions(apps);
    var band := [ScoreBandSuggestion(creditScore)];
    var util := UtilizationSuggestions(data.creditUtilizationRatio);
    var delinq := DelinquencySuggestions(data.delinquencyRatio, data.avgDpdPerDelinquency);
    var accounts := AccountSuggestions(data.numOpenAccounts);
    var debt := DebtSuggestions(data.loanAmount, data.income);
    var monitor, diversify, keepOld := [Rule(MonitorReport, None)], [Rule(DiversifyMix, None)], [Rule(KeepOldAccounts, None)];
    AdvicesAppend(trend, band);
    AdvicesAppend(trend + band, util);
    AdvicesAppend(trend + band + util, delinq);
    AdvicesAppend(trend + band + util + delinq, accounts);
    AdvicesAppend(trend + band + util + delinq + accounts, debt);
    AdvicesAppend(trend + band + util + delinq + accounts + debt, monitor);
    AdvicesAppend(trend + band + util + delinq + accounts + debt + monitor, diversify);
    AdvicesAppend(trend + band + util + delinq + accounts + debt + monitor + diversify, keepOld);
  }

  /** The advice each single-rule part contributes: the rule that fired, if any. */
  function PartAdvice(part: seq<Suggestion>): seq<Advice>
  {
    if part != [] && part[0].Rule? then [part[0].advice] else []
  }

  lemma SinglePartAdvices(part: seq<Suggestion>)
    requires |part| <= 1
    ensures Advices(part) == PartAdvice(part)
  {
    if part != [] { AdvicesOfOne(part[0]); }
  }

  /** The advice of the whole default list: one entry per rule that fired, in order. */
  lemma DefaultAdvices(creditScore: int, data: UserData, apps: seq<LoanApplication>)
    ensures Advices(DefaultSuggestions(creditScore, data, apps)) ==
      Advices(TrendSuggestions(apps))
      + [ScoreBandSuggestion(creditScore).advice]
      + PartAdvice(UtilizationSuggestions(data.creditUtilizationRatio))
      + PartAdvice(DelinquencySuggestions(data.delinquencyRatio, data.avgDpdPerDelinquency))
      + PartAdvice(AccountSuggestions(data.numOpenAccounts))
      + PartAdvice(DebtSuggestions(data.loanAmount, data.income))
      + [MonitorReport, DiversifyMix, KeepOldAccounts]
  {
    DefaultAdvicesByPart(creditScore, data, apps);
    SinglePartAdvices([ScoreBandSuggestion(creditScore)]);
    SinglePartAdvices(UtilizationSuggestions(data.creditUtilizationRatio));
    SinglePartAdvices(DelinquencySuggestions(data.delinquencyRatio, data.avgDpdPerDelinquency));
    SinglePartAdvices(AccountSuggestions(data.numOpenAccounts));
    SinglePartAdvices(DebtSuggestions(data.loanAmount, data.income));
    SinglePartAdvices([Rule(MonitorReport, None)]);
    SinglePartAdvices([Rule(DiversifyMix, None)]);
    SinglePartAdvices([Rule(KeepOldAccounts, None)]);
  }

  lemma {:induction false} CountInPartNone(advices: seq<Advice>, p: Part)
    requires forall a :: a in advices ==> PartOf(a) != p
    ensures CountInPart(advices, p) == 0
  {
    if advices != [] {
      assert advices[0] in advices;
      assert forall a :: a in advices[1..] ==> a in advices;
      CountInPartNone(advices[1..], p);
    }
  }

  // -------------------------------------------- properties of the advice

  /** The list always closes with the three general suggestions, in order, and holds 4 to 11 entries. */
  lemma GeneralTail(creditScore: int, data: UserData, apps: seq<LoanApplication>)
    ensures var s := DefaultSuggestions(creditScore, data, apps);
      4 <= |s| <= 11 && s[|s| - 3..] == GeneralSuggestions
    ensures var s := DefaultSuggestions(creditScore, data, apps);
      s[|s| - 3].Title() == "Monitor Your Credit Report"
      && s[|s| - 2].Title() == "Diversify Your Credit Mix"
      && s[|s| - 1].Title() == "Keep Old Accounts Open"
  {
    var s := DefaultSuggestions(creditScore, data, apps);
    var prefix := TrendSuggestions(apps)
      + [ScoreBandSuggestion(creditScore)]
      + UtilizationSuggestions(data.creditUtilizationRatio)
      + DelinquencySuggestions(data.delinquencyRatio, data.avgDpdPerDelinquency)
      + AccountSuggestions(data.numOpenAccounts)
      + DebtSuggestions(data.loanAmount, data.income);
    assert s == prefix + GeneralSuggestions;
    assert 1 <= |prefix| <= 8;
    assert s[|s| - 3..] == GeneralSuggestions;
  }

  /** Every entry of the default list is a rule, so its priority is one of the three levels. */
  lemma PrioritiesWellFormed(creditScore: int, data: UserData, apps: seq<LoanApplication>)
    ensures var s := DefaultSuggestions(creditScore, data, apps);
      forall i :: 0 <= i < |s| ==> s[i].Rule? && s[i].Priority() in {"High", "Medium", "Low"}
  {
    var trend := TrendSuggestions(apps);
    var band := [ScoreBandSuggestion(creditScore)];
    var util := UtilizationSuggestions(data.creditUtilizationRatio);
    var delinq := DelinquencySuggestions(data.delinquencyRatio, data.avgDpdPerDelinquency);
    var accounts := AccountSuggestions(data.numOpenAccounts);
    var debt := DebtSuggestions(data.loanAmount, data.income);
    if |apps| > 1 {
      var latest, previous := apps[0], apps[1];
      var scoreTrend := ScoreTrend(latest.creditScore - previous.creditScore);
      var utilTrend := UtilizationTrend(latest.request.creditUtilizationRatio - previous.request.creditUtilizationRatio);
      var delinqTrend := DelinquencyTrend(latest.request.delinquencyRatio - previous.request.delinquencyRatio);
      AllRulesAppend(scoreTrend, utilTrend);
      AllRulesAppend(scoreTrend + utilTrend, delinqTrend);
    }
    AllRulesAppend(trend, band);
    AllRulesAppend(trend + band, util);
    AllRulesAppend(trend + band + util, delinq);
    AllRulesAppend(trend + band + util + delinq, accounts);
    AllRulesAppend(trend + band + util + delinq + accounts, debt);
    AllRulesAppend(trend + band + util + delinq + accounts + debt, GeneralSuggestions);
    var s := DefaultSuggestions(creditScore, data, apps);
    assert s == trend + band + util + delinq + accounts + debt + GeneralSuggestions;
    forall i | 0 <= i < |s| ensures s[i].Rule? && s[i].Priority() in {"High", "Medium", "Low"} {
      AdvicePriorityLevel(s[i].advice);
    }
  }

  /** Every entry is a rule-based suggestion. */
  predicate AllRules(s: seq<Suggestion>)
  {
    forall i :: 0 <= i < |s| ==> s[i].Rule?
  }

  lemma AllRulesAppend(a: seq<Suggestion>, b: seq<Suggestion>)
    requires AllRules(a) && AllRules(b)
    ensures AllRules(a + b)
  {
    forall i | 0 <= i < |a + b| ensures (a + b)[i].Rule? {
      if i < |a| {
        assert (a + b)[i] == a[i];
      } else {
        assert (a + b)[i] == b[i - |a|];
      }
    }
  }

  lemma AdvicePriorityLevel(a: Advice)
    ensures AdvicePriority(a) in {"High", "Medium", "Low"}
  {
  }

  /**
   * When each advice is given, rule by rule: an independent statement of the
   * thresholds, against which the list the advisor builds is checked.
   */
  predicate Fires(a: Advice, creditScore: int, data: UserData, apps: seq<LoanApplication>)
  {
    match a
    case ScoreImproved => |apps| > 1 && apps[0].creditScore - apps[1].creditScore > 0
    case ScoreDeclined => |apps| > 1 && apps[0].creditScore - apps[1].creditScore < -20
    case UtilizationIncreasing =>
      |apps| > 1 && apps[0].request.creditUtilizationRatio - apps[1].request.creditUtilizationRatio > 10.0
    case UtilizationDecreasing =>
      |apps| > 1 && apps[0].request.creditUtilizationRatio - apps[1].request.creditUtilizationRatio < -10.0
    case DelaysIncreasing =>
      |apps| > 1 && apps[0].request.delinquencyRatio - apps[1].request.delinquencyRatio > 5.0
    case CriticalPaymentHistory => creditScore < 500
    case PaymentConsistency => 500 <= creditScore < 650
    case MaintainHabits => creditScore >= 650
    case ReduceUtilization => data.creditUtilizationRatio > 50.0
    case LowerUtilization => 30.0 < data.creditUtilizationRatio <= 50.0
    case PastDelinquencies => data.delinquencyRatio > 20.0 || data.avgDpdPerDelinquency > 15.0
    case BuildHistory => data.numOpenAccounts == 0
    case ManageAccounts => data.numOpenAccounts > 5
    case HighDebtToIncome => data.income > 0.0 && data.loanAmount > 3.0 * data.income
    case MonitorReport | DiversifyMix | KeepOldAccounts => true
  }

  lemma TrendMembership(creditScore: int, data: UserData, apps: seq<LoanApplication>)
    ensures forall a :: a in Advices(TrendSuggestions(apps)) <==> PartOf(a) == TrendPart && Fires(a, creditScore, data, apps)
  {
    TrendAdvices(apps);
  }

  lemma BandMembership(creditScore: int, data: UserData, apps: seq<LoanApplication>)
    ensures forall a :: a in [ScoreBandSuggestion(creditScore).advice] <==>
      PartOf(a) == BandPart && Fires(a, creditScore, data, apps)
  {
  }

  lemma UtilizationMembership(creditScore: int, data: UserData, apps: seq<LoanApplication>)
    ensures forall a :: a in PartAdvice(UtilizationSuggestions(data.creditUtilizationRatio)) <==>
      PartOf(a) == UtilizationPart && Fires(a, creditScore, data, apps)
  {
  }

  lemma DelinquencyMembership(creditScore: int, data: UserData, apps: seq<LoanApplication>)
    ensures forall a :: a in PartAdvice(DelinquencySuggestions(data.delinquencyRatio, data.avgDpdPerDelinquency)) <==>
      PartOf(a) == DelinquencyPart && Fires(a, creditScore, data, apps)
  {
  }

  lemma AccountMembership(creditScore: int, data: UserData, apps: seq<LoanApplication>)
    ensures forall a :: a in PartAdvice(AccountSuggestions(data.numOpenAccounts)) <==>
      PartOf(a) == AccountPart && Fires(a, creditScore, data, apps)
  {
  }

  lemma DebtMembership(creditScore: int, data: UserData, apps: seq<LoanApplication>)
    ensures forall a :: a in PartAdvice(DebtSuggestions(data.loanAmount, data.income)) <==>
      PartOf(a) == DebtPart && Fires(a, creditScore, data, apps)
  {
    var lti := PredictionHelper.LoanToIncome(data.loanAmount, data.income);
    if data.income > 0.0 {
      RatioAboveThree(lti, data.income, data.loanAmount);
    }
  }

  /** With a positive income, the ratio exceeds 3 exactly when the loan exceeds three incomes. */
  lemma RatioAboveThree(ratio: real, income: real, loanAmount: real)
    requires income > 0.0 && ratio * income == loanAmount
    ensures ratio > 3.0 <==> loanAmount > 3.0 * income
  {
    assert loanAmount - 3.0 * income == (ratio - 3.0) * income;
    if ratio > 3.0 {
      assert (ratio - 3.0) * income > 0.0;
    } else {
      assert (3.0 - ratio) * income >= 0.0;
    }
  }

  /** Combines the parts: each part holds exactly the advice of its own kind whose rule fires. */
  lemma FiresFromParts(
    all: seq<Advice>, trend: seq<Advice>, band: seq<Advice>, util: seq<Advice>, delinq: seq<Advice>,
    accounts: seq<Advice>, debt: seq<Advice>, creditScore: int, data: UserData, apps: seq<LoanApplication>)
    requires all == trend + band + util + delinq + accounts + debt + [MonitorReport, DiversifyMix, KeepOldAccounts]
    requires forall a :: a in trend <==> PartOf(a) == TrendPart && Fires(a, creditScore, data, apps)
    requires forall a :: a in band <==> PartOf(a) == BandPart && Fires(a, creditScore, data, apps)
    requires forall a :: a in util <==> PartOf(a) == UtilizationPart && Fires(a, creditScore, data, apps)
    requires forall a :: a in delinq <==> PartOf(a) == DelinquencyPart && Fires(a, creditScore, data, apps)
    requires forall a :: a in accounts <==> PartOf(a) == AccountPart && Fires(a, creditScore, data, apps)
    requires forall a :: a in debt <==> PartOf(a) == DebtPart && Fires(a, creditScore, data, apps)
    ensures forall a :: a in all <==> Fires(a, creditScore, data, apps)
  {
  }

  /** An advice is in the default list exactly when its rule fires. */
  lemma AdviceIffFires(creditScore: int, data: UserData, apps: seq<LoanApplication>)
    ensures forall a :: a in Advices(DefaultSuggestions(creditScore, data, apps)) <==> Fires(a, creditScore, data, apps)
  {
    DefaultAdvices(creditScore, data, apps);
    TrendMembership(creditScore, data, apps);
    BandMembership(creditScore, data, apps);
    UtilizationMembership(creditScore, data, apps);
    DelinquencyMembership(creditScore, data, apps);
    AccountMembership(creditScore, data, apps);
    DebtMembership(creditScore, data, apps);
    FiresFromParts(Advices(DefaultSuggestions(creditScore, data, apps)),
      Advices(TrendSuggestions(apps)),
      [ScoreBandSuggestion(creditScore).advice],
      PartAdvice(UtilizationSuggestions(data.creditUtilizationRatio)),
      PartAdvice(DelinquencySuggestions(data.delinquencyRatio, data.avgDpdPerDelinquency)),
      PartAdvice(AccountSuggestions(data.numOpenAccounts)),
      PartAdvice(DebtSuggestions(data.loanAmount, data.income)),
      creditScore, data, apps);
  }

  lemma CountOneInMiddle(all: seq<Advice>, before: seq<Advice>, x: Advice, after: seq<Advice>, p: Part)
    requires all == before + [x] + after
    requires forall a :: a in before ==> PartOf(a) != p
    requires forall a :: a in after ==> PartOf(a) != p
    requires PartOf(x) == p
    ensures CountInPart(all, p) == 1
  {
    CountInPartAppend(before + [x], after, p);
    CountInPartAppend(before, [x], p);
    CountInPartNone(before, p);
    CountInPartNone(after, p);
    assert [x][1..] == [];
  }

  /** Combines the parts: only the one band advice belongs to the band part. */
  lemma BandCountFromParts(
    all: seq<Advice>, trend: seq<Advice>, band: Advice, util: seq<Advice>, delinq: seq<Advice>,
    accounts: seq<Advice>, debt: seq<Advice>)
    requires all == trend + [band] + util + delinq + accounts + debt + [MonitorReport, DiversifyMix, KeepOldAccounts]
    requires PartOf(band) == BandPart
    requires forall a :: a in trend ==> PartOf(a) == TrendPart
    requires forall a :: a in util ==> PartOf(a) == UtilizationPart
    requires forall a :: a in delinq ==> PartOf(a) == DelinquencyPart
    requires forall a :: a in accounts ==> PartOf(a) == AccountPart
    requires forall a :: a in debt ==> PartOf(a) == DebtPart
    ensures CountInPart(all, BandPart) == 1
  {
    var after := util + delinq + accounts + debt + [MonitorReport, DiversifyMix, KeepOldAccounts];
    assert all == trend + [band] + after;
    CountOneInMiddle(all, trend, band, after, BandPart);
  }

  /** Exactly one score-band suggestion, chosen by the band the score falls in. */
  lemma ExactlyOneScoreBand(creditScore: int, data: UserData, apps: seq<LoanApplication>)
    ensures CountInPart(Advices(DefaultSuggestions(creditScore, data, apps)), BandPart) == 1
    ensures AdvicePriority(ScoreBandSuggestion(creditScore).advice) ==
      if creditScore < 500 then "High" else if creditScore < 650 then "Medium" else "Low"
  {
    DefaultAdvices(creditScore, data, apps);
    TrendMembership(creditScore, data, apps);
    UtilizationMembership(creditScore, data, apps);
    DelinquencyMembership(creditScore, data, apps);
    AccountMembership(creditScore, data, apps);
    DebtMembership(creditScore, data, apps);
    BandCountFromParts(Advices(DefaultSuggestions(creditScore, data, apps)),
      Advices(TrendSuggestions(apps)),
      ScoreBandSuggestion(creditScore).advice,
      PartAdvice(UtilizationSuggestions(data.creditUtilizationRatio)),
      PartAdvice(DelinquencySuggestions(data.delinquencyRatio, data.avgDpdPerDelinquency)),
      PartAdvice(AccountSuggestions(data.numOpenAccounts)),
      PartAdvice(DebtSuggestions(data.loanAmount, data.income)));
  }
}
