/**
 * The per-request pipeline: collect and cap the form (app.py:67-110),
 * reject a non-positive income (app.py:127-129), derive and encode the
 * features (app.py:132-158), score them with the external scaler and
 * classifier (app.py:172-175), and render the verdict with its confidence
 * and the explainer's lists (app.py:178-195, 216-242).
 *
 * The scaler and classifier are opaque function parameters; all that is
 * assumed of them is that the class-1 probability lies in [0, 1].
 */
module Pipeline {
  import opened Wrappers
  import opened InputCollector
  import opened FeatureEngineer
  import opened Encoder
  import opened Explainer

  /** The only validation failure: "Annual Income must be greater than 0". */
  datatype ValidationError = IncomeNotPositive

  /** A capped applicant whose income passed validation can be derived:
      the score denominator is at least 301. */
  lemma ValidatedIsDerivable(f: RawForm)
    requires Collect(f).income > 0.0
    ensures Derivable(Collect(f))
  {
  }

  /** What the script hands the scaler: the schema-ordered vector, or the
      validation failure when the capped income is not positive. */
  function PreparedVector(f: RawForm, features: seq<string>): (r: Result<seq<real>, ValidationError>)
    ensures r.Failure? <==> Collect(f).income == 0.0
    ensures r.Success? ==> |r.value| == |features|
  {
    var a := Collect(f);
    if a.income <= 0.0 then Failure(IncomeNotPositive) else Success(FeatureVector(a, features))
  }

  /** The script from the empty `user_input` (app.py:67) to the reindexed
      frame (app.py:158), writing the dictionary step by step. */
  method Prepare(f: RawForm, features: seq<string>) returns (r: Result<seq<real>, ValidationError>)
    ensures r == PreparedVector(f, features)
    ensures r.Failure? <==> Collect(f).income == 0.0
    ensures r.Success? ==> |r.value| == |features|
  {
    var userInput: map<string, real> := map[];
    userInput := userInput["person_age" := Cap(f.age, AgeMin, AgeMax)];
    userInput := userInput["person_emp_exp" := Cap(f.empExp, EmpExpMin, EmpExpMax)];

    var income := Cap(f.income, IncomeMin, IncomeMax);
    var loanAmnt := Cap(f.loanAmnt, LoanAmntMin, LoanAmntMax);
    var intRate := Cap(f.intRate, IntRateMin, IntRateMax);
    var credHist := Cap(f.credHist, CredHistMin, CredHistMax);
    var creditScore := Cap(f.creditScore, CreditScoreMin, CreditScoreMax);
    userInput := userInput["person_income" := income];
    userInput := userInput["loan_amnt" := loanAmnt];
    userInput := userInput["loan_int_rate" := intRate];
    userInput := userInput["cb_person_cred_hist_length" := credHist];
    userInput := userInput["credit_score" := creditScore];

    ghost var a := Collect(f);
    assert a.income == income;
    if income <= 0.0 {
      return Failure(IncomeNotPositive);
    }

    var loanPercentIncome := LoanPercentIncome(loanAmnt, income);
    userInput := userInput["loan_percent_income" := loanPercentIncome];
    userInput := userInput["aggressive_loan_flag" := AggressiveLoanFlag(loanPercentIncome, intRate)];
    userInput := userInput["risk_inversion_score" := RiskInversionScore(intRate, loanPercentIncome, creditScore)];

    var applicant := Applicant(userInput["person_age"], userInput["person_emp_exp"], f.gender, f.education,
      income, loanAmnt, intRate, credHist, creditScore, f.home, f.intent, f.previousDefault);
    assert applicant == a;
    userInput := OneHotEncode(features, applicant, userInput);

    userInput := userInput["previous_loan_defaults_on_file_Yes" := if f.previousDefault.Label() == "Yes" then 1.0 else 0.0];

    var bucket := Bucket(income);
    userInput := userInput["income_bucket_Mid" := if bucket == Some(Mid) then 1.0 else 0.0];
    userInput := userInput["income_bucket_High" := if bucket == Some(High) then 1.0 else 0.0];
    userInput := userInput["income_bucket_Very High" := if bucket == Some(VeryHigh) then 1.0 else 0.0];

    assert userInput == UserInput(a, features);
    UserInputReindexed(a, features);
    r := Success(Reindex(userInput, features));
  }

  /** What the result card shows. */
  datatype Verdict =
    | Approved(confidence: real)
    | Rejected(confidence: real, riskFactors: seq<string>, recommendations: seq<string>)

  /** The confidence shown: `prob` on approval, `1 - prob` on rejection (app.py:224, 235). */
  function Confidence(prediction: int, prob: real): (c: real)
    ensures prediction == 1 ==> c == prob
    ensures prediction != 1 ==> c == 1.0 - prob
    ensures 0.0 <= prob <= 1.0 ==> 0.0 <= c <= 1.0
  {
    if prediction == 1 then prob else 1.0 - prob
  }

  /** The card of app.py:216-245: an approval shows only its confidence; a
      rejection also shows the lists, each falling back to a single item. */
  function Render(prediction: int, prob: real, risks: seq<string>, recs: seq<string>): (v: Verdict)
    ensures v.Approved? <==> prediction == 1
    ensures v.confidence == Confidence(prediction, prob)
    ensures v.Rejected? ==> |v.riskFactors| >= 1 && |v.recommendations| >= 1
    ensures v.Rejected? && risks != [] ==> v.riskFactors == risks
    ensures v.Rejected? && risks == [] ==> v.riskFactors == [FallbackRisk]
    ensures v.Rejected? && recs != [] ==> v.recommendations == recs
    ensures v.Rejected? && recs == [] ==> v.recommendations == [FallbackRecommendation]
  {
    if prediction == 1 then Approved(prob)
    else Rejected(1.0 - prob, OrFallback(risks, FallbackRisk), OrFallback(recs, FallbackRecommendation))
  }

  /** The whole request, as a function of the form, the schema and the three
      external operations. */
  function Outcome(f: RawForm, features: seq<string>, scale: seq<real> -> seq<real>,
                   predict: seq<real> -> int, proba: seq<real> -> real): (r: Result<Verdict, ValidationError>)
    ensures r.Failure? <==> Collect(f).income == 0.0
    ensures r.Success? ==> Derivable(Collect(f))
    ensures r.Success? ==> (r.value.Approved? <==> predict(scale(FeatureVector(Collect(f), features))) == 1)
    ensures r.Success? && r.value.Rejected? ==>
      r.value.confidence == 1.0 - proba(scale(FeatureVector(Collect(f), features)))
  {
    match PreparedVector(f, features)
    case Failure(e) => Failure(e)
    case Success(v) =>
      var a := Collect(f);
      var fired := Fired(a, Derive(a));
      var scaled := scale(v);
      Success(Render(predict(scaled), proba(scaled), RiskTexts(fired), RecommendationTexts(fired)))
  }

  /** One press of "Predict Loan Approval": prepare the vector, scale it,
      classify it, explain it and render the card (app.py:169-245). */
  method Run(f: RawForm, features: seq<string>, scale: seq<real> -> seq<real>,
             predict: seq<real> -> int, proba: seq<real> -> real)
    returns (r: Result<Verdict, ValidationError>)
    requires forall x :: 0.0 <= proba(x) <= 1.0
    ensures r == Outcome(f, features, scale, predict, proba)
    ensures r.Failure? <==> Collect(f).income == 0.0
    ensures r.Success? ==> 0.0 <= r.value.confidence <= 1.0
  {
    var prepared := Prepare(f, features);
    if prepared.Failure? {
      return Failure(prepared.error);
    }
    var inputVector := prepared.value;
    var scaledInput := scale(inputVector);
    var prediction := predict(scaledInput);
    var prob := proba(scaledInput);
    var a := Collect(f);
    var riskFactors, recommendations := Explain(a, Derive(a));
    r := Success(Render(prediction, prob, riskFactors, recommendations));
  }

  /** An unparsable or zero income halts the request before any feature is derived. */
  lemma ZeroIncomeHalts(f: RawForm, features: seq<string>, scale: seq<real> -> seq<real>,
                        predict: seq<real> -> int, proba: seq<real> -> real)
    requires f.income.None? || (f.income.Some? && f.income.value <= 0.0)
    ensures Outcome(f, features, scale, predict, proba) == Failure(IncomeNotPositive)
  {
  }

  /** A rejection lists the risk factor and recommendation of every rule that
      fired, and the fallback pair exactly when none did. */
  lemma RejectionExplained(f: RawForm, features: seq<string>, scale: seq<real> -> seq<real>,
                           predict: seq<real> -> int, proba: seq<real> -> real)
    requires Outcome(f, features, scale, predict, proba).Success?
    requires Outcome(f, features, scale, predict, proba).value.Rejected?
    ensures var v := Outcome(f, features, scale, predict, proba).value;
            var a := Collect(f);
            var d := Derive(a);
            && |v.riskFactors| == |v.recommendations|
            && ((v.riskFactors == [FallbackRisk] && v.recommendations == [FallbackRecommendation])
                <==> (forall rule: Rule :: !rule.Fires(a, d)))
            && (Fired(a, d) != [] ==> v.riskFactors == RiskTexts(Fired(a, d))
                                      && v.recommendations == RecommendationTexts(Fired(a, d)))
  {
    var a := Collect(f);
    FallbackIffNoRuleFired(a, Derive(a));
  }
}
