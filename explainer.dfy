/**
 * The explainer: five independent threshold rules, each appending one risk
 * factor and its paired recommendation (app.py:178-195), and the single
 * fallback item each list shows when no rule fired (app.py:238, 242).
 */
module Explainer {
  import opened Wrappers
  import opened InputCollector
  import opened FeatureEngineer
  import opened Encoder

  // Thresholds of the rules (app.py:181, 184, 190, 193).
  const CreditScoreFloor: real := 650.0
  const IncomeFloor: real := 25000.0
  const EmploymentFloor: real := 2.0

  /** The rules, as a table: each has a condition, a risk text and a recommendation text. */
  datatype Rule = LowCreditScore | HighLoanBurden | PreviousDefaults | LowIncome | ShortEmployment {

    predicate Fires(a: Applicant, d: Derived) {
      match this
      case LowCreditScore => a.creditScore < CreditScoreFloor
      case HighLoanBurden => d.loanPercentIncome > BurdenThreshold
      case PreviousDefaults => a.previousDefault == Yes
      case LowIncome => a.income < IncomeFloor
      case ShortEmployment => a.empExp < EmploymentFloor
    }

    function Risk(): string {
      match this
      case LowCreditScore => "Low credit score"
      case HighLoanBurden => "High loan amount relative to income"
      case PreviousDefaults => "Previous loan defaults on file"
      case LowIncome => "Low annual income"
      case ShortEmployment => "Short employment history"
    }

    function Recommendation(): string {
      match this
      case LowCreditScore => "Work on improving your credit score before applying"
      case HighLoanBurden => "Consider reducing the requested loan amount"
      case PreviousDefaults => "Build a positive repayment history"
      case LowIncome => "Increase your income to improve approval chances"
      case ShortEmployment => "Gain more work experience"
    }

    /** The rule itself when it fires, nothing otherwise. */
    function Kept(a: Applicant, d: Derived): seq<Rule> {
      if Fires(a, d) then [this] else []
    }

    /** The rule's position in the table, which is the order the script checks them in. */
    function Rank(): nat {
      match this
      case LowCreditScore => 0
      case HighLoanBurden => 1
      case PreviousDefaults => 2
      case LowIncome => 3
      case ShortEmployment => 4
    }
  }

  const RuleTable: seq<Rule> := [LowCreditScore, HighLoanBurden, PreviousDefaults, LowIncome, ShortEmployment]

  const FallbackRisk: string := "Profile does not meet approval criteria"
  const FallbackRecommendation: string := "Review your application details and try again"

  predicate RankIncreasing(rules: seq<Rule>) {
    forall i, j :: 0 <= i < j < |rules| ==> rules[i].Rank() < rules[j].Rank()
  }

  /** The rules of `rules` whose condition holds, in their original order. */
  function FiredRules(rules: seq<Rule>, a: Applicant, d: Derived): (r: seq<Rule>)
    ensures |r| <= |rules|
  {
    if rules == [] then []
    else (if rules[0].Fires(a, d) then [rules[0]] else []) + FiredRules(rules[1..], a, d)
  }

  /** A rule is kept exactly when it is listed and its condition holds. */
  lemma {:induction false} FiredRulesMember(rules: seq<Rule>, a: Applicant, d: Derived, x: Rule)
    ensures x in FiredRules(rules, a, d) <==> x in rules && x.Fires(a, d)
  {
    if rules != [] {
      FiredRulesMember(rules[1..], a, d, x);
      assert rules == [rules[0]] + rules[1..];
    }
  }

  /** Filtering keeps the table order. */
  lemma {:induction false} FiredRulesOrdered(rules: seq<Rule>, a: Applicant, d: Derived)
    requires RankIncreasing(rules)
    ensures RankIncreasing(FiredRules(rules, a, d))
  {
    if rules != [] {
      var tail := FiredRules(rules[1..], a, d);
      FiredRulesOrdered(rules[1..], a, d);
      forall k | 0 <= k < |tail|
        ensures rules[0].Rank() < tail[k].Rank()
      {
        FiredRulesMember(rules[1..], a, d, tail[k]);
        var j :| 0 <= j < |rules[1..]| && rules[1..][j] == tail[k];
        assert rules[j + 1] == tail[k];
      }
    }
  }

  /** The rules that fire for an applicant, in table order. */
  function Fired(a: Applicant, d: Derived): seq<Rule> {
    FiredRules(RuleTable, a, d)
  }

  function RiskTexts(rules: seq<Rule>): seq<string> {
    seq(|rules|, i requires 0 <= i < |rules| => rules[i].Risk())
  }

  function RecommendationTexts(rules: seq<Rule>): seq<string> {
    seq(|rules|, i requires 0 <= i < |rules| => rules[i].Recommendation())
  }

  /** The checks of app.py:178-195, appending to the two lists step by step. */
  method Explain(a: Applicant, d: Derived) returns (riskFactors: seq<string>, recommendations: seq<string>)
    ensures |riskFactors| == |recommendations| == |Fired(a, d)|
    ensures riskFactors == RiskTexts(Fired(a, d))
    ensures recommendations == RecommendationTexts(Fired(a, d))
  {
    riskFactors, recommendations := [], [];
    ghost var rules: seq<Rule> := [];
    ExplainStep(LowCreditScore, a, d, rules, riskFactors, recommendations, a.creditScore < CreditScoreFloor, "Low credit score",
      "Work on improving your credit score before applying");
    if a.creditScore < CreditScoreFloor {
      riskFactors := riskFactors + ["Low credit score"];
      recommendations := recommendations + ["Work on improving your credit score before applying"];
    }
    rules := rules + LowCreditScore.Kept(a, d);
    ExplainStep(HighLoanBurden, a, d, rules, riskFactors, recommendations, d.loanPercentIncome > BurdenThreshold, "High loan amount relative to income",
      "Consider reducing the requested loan amount");
    if d.loanPercentIncome > BurdenThreshold {
      riskFactors := riskFactors + ["High loan amount relative to income"];
      recommendations := recommendations + ["Consider reducing the requested loan amount"];
    }
    rules := rules + HighLoanBurden.Kept(a, d);
    ExplainStep(PreviousDefaults, a, d, rules, riskFactors, recommendations, DefaultFlag(a) == 1.0, "Previous loan defaults on file",
      "Build a positive repayment history");
    if DefaultFlag(a) == 1.0 {
      riskFactors := riskFactors + ["Previous loan defaults on file"];
      recommendations := recommendations + ["Build a positive repayment history"];
    }
    rules := rules + PreviousDefaults.Kept(a, d);
    ExplainStep(LowIncome, a, d, rules, riskFactors, recommendations, a.income < IncomeFloor, "Low annual income",
      "Increase your income to improve approval chances");
    if a.income < IncomeFloor {
      riskFactors := riskFactors + ["Low annual income"];
      recommendations := recommendations + ["Increase your income to improve approval chances"];
    }
    rules := rules + LowIncome.Kept(a, d);
    ExplainStep(ShortEmployment, a, d, rules, riskFactors, recommendations, a.empExp < EmploymentFloor, "Short employment history",
      "Gain more work experience");
    if a.empExp < EmploymentFloor {
      riskFactors := riskFactors + ["Short employment history"];
      recommendations := recommendations + ["Gain more work experience"];
    }
    rules := rules + ShortEmployment.Kept(a, d);
    FiredInTableOrder(a, d);
  }

  /** The lists hold the texts of the rules in `rules`. */
  ghost predicate Tracked(rules: seq<Rule>, risks: seq<string>, recs: seq<string>) {
    risks == RiskTexts(rules) && recs == RecommendationTexts(rules)
  }

  /** One check of the explainer appends the texts of the rule exactly when it fires. */
  lemma ExplainStep(rule: Rule, a: Applicant, d: Derived,
                    rules: seq<Rule>, risks: seq<string>, recs: seq<string>,
                    fires: bool, risk: string, rec: string)
    requires Tracked(rules, risks, recs)
    requires fires == rule.Fires(a, d) && risk == rule.Risk() && rec == rule.Recommendation()
    ensures Tracked(rules + rule.Kept(a, d), if fires then risks + [risk] else risks,
                    if fires then recs + [rec] else recs)
  {
    TextsSnoc(rules, rule);
    assert rules + [] == rules;
  }

  /** The script checks the rules in table order. */
  lemma FiredInTableOrder(a: Applicant, d: Derived)
    ensures Fired(a, d) == [] + LowCreditScore.Kept(a, d) + HighLoanBurden.Kept(a, d) + PreviousDefaults.Kept(a, d)
                              + LowIncome.Kept(a, d) + ShortEmployment.Kept(a, d)
  {
    assert RuleTable[..0] == [];
    FiredPrefixStep(0, a, d);
    FiredPrefixStep(1, a, d);
    FiredPrefixStep(2, a, d);
    FiredPrefixStep(3, a, d);
    FiredPrefixStep(4, a, d);
    assert RuleTable[..5] == RuleTable;
  }

  /** Filtering a list extended by one rule extends the result by that rule if it fires. */
  lemma {:induction false} FiredRulesSnoc(rules: seq<Rule>, r: Rule, a: Applicant, d: Derived)
    ensures FiredRules(rules + [r], a, d) == FiredRules(rules, a, d) + (if r.Fires(a, d) then [r] else [])
  {
    if rules != [] {
      assert (rules + [r])[1..] == rules[1..] + [r];
      FiredRulesSnoc(rules[1..], r, a, d);
    } else {
      assert [] + [r] == [r];
    }
  }

  /** The rules fired among the first k + 1 of the table. */
  lemma FiredPrefixStep(k: nat, a: Applicant, d: Derived)
    requires k < |RuleTable|
    ensures FiredRules(RuleTable[..k + 1], a, d) ==
      FiredRules(RuleTable[..k], a, d) + (if RuleTable[k].Fires(a, d) then [RuleTable[k]] else [])
  {
    assert RuleTable[..k + 1] == RuleTable[..k] + [RuleTable[k]];
    FiredRulesSnoc(RuleTable[..k], RuleTable[k], a, d);
  }

  lemma TextsSnoc(rules: seq<Rule>, r: Rule)
    ensures RiskTexts(rules + [r]) == RiskTexts(rules) + [r.Risk()]
    ensures RecommendationTexts(rules + [r]) == RecommendationTexts(rules) + [r.Recommendation()]
  {
  }

  /** Every rule sits in the table at the position of its rank. */
  lemma RuleTableComplete(rule: Rule)
    ensures rule.Rank() < |RuleTable| && RuleTable[rule.Rank()] == rule
  {
  }

  lemma RuleTableRanked()
    ensures RankIncreasing(RuleTable)
  {
    forall i | 0 <= i < |RuleTable|
      ensures RuleTable[i].Rank() == i
    {
    }
  }

  /** Distinct rules have distinct texts. */
  lemma TextsDistinct(r1: Rule, r2: Rule)
    requires r1 != r2
    ensures r1.Risk() != r2.Risk() && r1.Recommendation() != r2.Recommendation()
  {
    RiskNamesRule(r1);
    RiskNamesRule(r2);
    RecommendationNamesRule(r1);
    RecommendationNamesRule(r2);
  }

  /** The rule a risk text belongs to. */
  function RuleOfRisk(text: string): Option<Rule> {
    if text == "Low credit score" then Some(LowCreditScore)
    else if text == "High loan amount relative to income" then Some(HighLoanBurden)
    else if text == "Previous loan defaults on file" then Some(PreviousDefaults)
    else if text == "Low annual income" then Some(LowIncome)
    else if text == "Short employment history" then Some(ShortEmployment)
    else None
  }

  /** The rule a recommendation text belongs to. */
  function RuleOfRecommendation(text: string): Option<Rule> {
    if text == "Work on improving your credit score before applying" then Some(LowCreditScore)
    else if text == "Consider reducing the requested loan amount" then Some(HighLoanBurden)
    else if text == "Build a positive repayment history" then Some(PreviousDefaults)
    else if text == "Increase your income to improve approval chances" then Some(LowIncome)
    else if text == "Gain more work experience" then Some(ShortEmployment)
    else None
  }

  lemma RiskNamesRule(r: Rule)
    ensures RuleOfRisk(r.Risk()) == Some(r)
  {
    match r
    case LowCreditScore =>
    case HighLoanBurden =>
      assert "Low credit score" != "High loan amount relative to income";
    case PreviousDefaults =>
      assert "Low credit score" != "Previous loan defaults on file";
      assert "High loan amount relative to income" != "Previous loan defaults on file";
    case LowIncome =>
      assert "Low credit score"[4] != "Low annual income"[4];
      assert "High loan amount relative to income" != "Low annual income";
      assert "Previous loan defaults on file" != "Low annual income";
    case ShortEmployment =>
      assert "Low credit score" != "Short employment history";
      assert "High loan amount relative to income" != "Short employment history";
      assert "Previous loan defaults on file" != "Short employment history";
      assert "Low annual income" != "Short employment history";
  }

  lemma RecommendationNamesRule(r: Rule)
    ensures RuleOfRecommendation(r.Recommendation()) == Some(r)
  {
  }

  /** The two lists stay paired: they have equal length and their i-th
      entries are the risk and the recommendation of the same rule. */
  lemma ExplanationPaired(a: Applicant, d: Derived, i: nat)
    requires i < |Fired(a, d)|
    ensures |RiskTexts(Fired(a, d))| == |RecommendationTexts(Fired(a, d))|
    ensures RiskTexts(Fired(a, d))[i] == Fired(a, d)[i].Risk()
    ensures RecommendationTexts(Fired(a, d))[i] == Fired(a, d)[i].Recommendation()
  {
  }

  /** Each rule contributes its pair exactly when its condition holds, and the
      contributions appear in the order of the table. */
  lemma RuleContributesIff(a: Applicant, d: Derived, rule: Rule)
    ensures rule in Fired(a, d) <==> rule.Fires(a, d)
    ensures rule.Risk() in RiskTexts(Fired(a, d)) <==> rule.Fires(a, d)
    ensures rule.Recommendation() in RecommendationTexts(Fired(a, d)) <==> rule.Fires(a, d)
    ensures RankIncreasing(Fired(a, d))
  {
    RuleTableComplete(rule);
    RuleTableRanked();
    FiredRulesMember(RuleTable, a, d, rule);
    FiredRulesOrdered(RuleTable, a, d);
    var fired := Fired(a, d);
    if rule in fired {
      var i :| 0 <= i < |fired| && fired[i] == rule;
      assert RiskTexts(fired)[i] == rule.Risk();
      assert RecommendationTexts(fired)[i] == rule.Recommendation();
    }
    if rule.Risk() in RiskTexts(fired) {
      var i :| 0 <= i < |fired| && RiskTexts(fired)[i] == rule.Risk();
      if fired[i] != rule {
        TextsDistinct(fired[i], rule);
      }
    }
    if rule.Recommendation() in RecommendationTexts(fired) {
      var i :| 0 <= i < |fired| && RecommendationTexts(fired)[i] == rule.Recommendation();
      if fired[i] != rule {
        TextsDistinct(fired[i], rule);
      }
    }
  }

  /** `items or [fallback]`: an empty list is shown as the single fallback item. */
  function OrFallback(items: seq<string>, fallback: string): (r: seq<string>)
    ensures |r| >= 1
    ensures items != [] ==> r == items
    ensures items == [] ==> r == [fallback]
  {
    if items == [] then [fallback] else items
  }

  /** The displayed lists are the fallback pair exactly when no rule fired. */
  lemma FallbackIffNoRuleFired(a: Applicant, d: Derived)
    ensures (OrFallback(RiskTexts(Fired(a, d)), FallbackRisk) == [FallbackRisk]
             && OrFallback(RecommendationTexts(Fired(a, d)), FallbackRecommendation) == [FallbackRecommendation])
        <==> (forall rule: Rule :: !rule.Fires(a, d))
  {
    var fired := Fired(a, d);
    if fired != [] {
      assert RiskTexts(fired)[0] == fired[0].Risk() != FallbackRisk;
      RuleContributesIff(a, d, fired[0]);
    } else {
      forall rule: Rule
        ensures !rule.Fires(a, d)
      {
        RuleContributesIff(a, d, rule);
      }
    }
  }

  /** Scenario: credit score 600, loan-to-income 0.4, a previous default,
      income 20000 and one year of employment raise all five pairs, in table order. */
  lemma AllRulesScenario(a: Applicant, d: Derived)
    requires a.creditScore == 600.0 && d.loanPercentIncome == 0.4 && a.previousDefault == Yes
    requires a.income == 20000.0 && a.empExp == 1.0
    ensures RiskTexts(Fired(a, d)) == ["Low credit score", "High loan amount relative to income",
      "Previous loan defaults on file", "Low annual income", "Short employment history"]
    ensures RecommendationTexts(Fired(a, d)) == ["Work on improving your credit score before applying",
      "Consider reducing the requested loan amount", "Build a positive repayment history",
      "Increase your income to improve approval chances", "Gain more work experience"]
  {
    FiredInTableOrder(a, d);
  }
}
