# Loan approval predictor: a Dafny model of its request pipeline

`app.py` is a Streamlit page. An applicant fills in a form, and the page
predicts whether a loan is likely to be approved. Each run of the script does
the following for one request:

1. It reads the form and clamps every numeric field into a fixed range with
   `cap`.
2. It rejects an annual income that is not positive.
3. It derives three features: the loan-to-income ratio capped at 0.6, the
   aggressive-loan flag and the risk inversion score.
4. It one-hot encodes the categorical answers against the trained feature
   schema.
5. It flags a previous default.
6. It puts the income into a right-closed bucket, with `Low` left implicit.
7. It reindexes the dictionary it has built to the schema order, using 0 for
   missing columns.
8. It passes the vector to a pre-trained scaler and classifier.
9. It renders a card. An approval shows confidence `prob`. A rejection shows
   confidence `1 - prob`, the risk factors and recommendations raised by five
   threshold rules, and a single fallback item for an empty list.

The model is organised in five modules, one per stage, plus a wrapper module:

- `Wrappers` holds `Option` and `Result`.
- `InputCollector` holds `cap` (`Cap`), the seven ranges, the closed choice
  lists of the select boxes (datatypes whose `Label()` is the displayed string),
  the raw form `RawForm` and the capped applicant `Applicant`.
  - A text field that does not parse as a number is `None`.
- `FeatureEngineer` holds the three derived features and the income buckets.
  - `Cut` is a right-closed bucketing over a list of edges, as `pandas.cut`
    does it by default.
  - `Bucket` is `Cut` applied to the script's edges.
- `Encoder` holds both forms of the encoding.
  - `OneHotEncode` is the `for col in features` loop, written as a method that
    updates the dictionary. It is proved equal to the closed form
    `OneHotEncoded`.
  - `UserInput` is the whole dictionary the script assembles. It is built from
    `ScriptFields` (the ten writes before the loop), the loop and `WithFlags`
    (the four writes after it). `NamedEntries` is the same dictionary without
    the loop.
  - `Reindex` is the reindex to the schema.
  - `FeatureVector` is an independent column-by-column reference definition of
    what each schema column receives. `UserInputReindexed` proves that the
    reindexed dictionary equals it.
- `Explainer` holds the five rules as a table (`Rule`: condition, risk text,
  recommendation text, rank).
  - `Fired` filters the table.
  - `Explain` is the script's `if`/`append` chain, written as a method. It is
    proved to produce exactly the texts of the fired rules in order.
    `FiredInTableOrder` writes `Fired` as the concatenation of each rule's
    contribution (`Kept`) in check order.
- `Pipeline` chains the stages together.
  - `Prepare` is the script from the empty `user_input` to the reindexed frame,
    writing the dictionary step by step.
  - `Run` is one press of the predict button. The scaler, `predict` and
    `predict_proba` are function parameters. The only assumption made about
    them is that the probability lies in [0, 1].

Python floats are modelled as mathematical reals. Python `int(...)` flags are
modelled as the reals 0 and 1, because `astype(float)` turns them into floats.
The schema `features` is a parameter, because it is loaded from a file.

The risk and recommendation texts are those of app.py:181-195, and the
fallback items are those of app.py:238 and 242. The two lists are computed on
every prediction, before the approve/reject branch at app.py:216, and are
shown only on rejection; `Render` models the display.

## Model

| member | source | states |
|---|---|---|
| InputCollector.Cap | app.py:69-74 | The result lies in [lo, hi] when lo <= hi. An unparsable value gives lo. A value inside the range is unchanged. A value below lo gives lo and one above hi gives hi. An inverted range gives hi, because `min` is applied last. |
| InputCollector.CapIdempotent | app.py:69-74 | Capping an already capped value changes nothing. |
| InputCollector.CapMonotone | app.py:69-74 | Capping preserves the order of two values. |
| InputCollector.Collect | app.py:81-119 | Every numeric field lies in the script's constant range (age 18-75, experience 0-50, income 0-300000, loan 0-35000, rate 0-20, history 0-20, score 300-850). It is the low end for an unparsable or too small answer, the high end for a too large one, and the answer itself otherwise. The categorical answers are copied unchanged. |
| InputCollector.CollectedIncomeNonNegative | app.py:101 | The capped income is never negative. So `income <= 0` holds exactly when it is 0, and an unparsable income is 0. |
| FeatureEngineer.LoanPercentIncome | app.py:132 | For positive income the ratio is at most 0.6. It equals loan/income when that is at most 0.6, and equals 0.6 otherwise. A non-negative loan gives a non-negative ratio. |
| FeatureEngineer.AggressiveLoanFlag | app.py:134 | The flag is 0 or 1. It is 1 exactly when the ratio exceeds 0.3 and the rate exceeds 15. |
| FeatureEngineer.RiskInversionScore | app.py:135 | The score times (credit score + 1) equals rate times ratio. It is non-negative for non-negative inputs and a positive denominator. |
| FeatureEngineer.Derive | app.py:132-135 | The ratio is at most 0.6 and is loan/income when that is at most 0.6. The flag is 0 or 1, and is 1 exactly when the ratio exceeds 0.3 and the rate exceeds 15. |
| FeatureEngineer.DerivedBounds | app.py:132-135 | For a capped applicant with positive income every derived feature is defined. The ratio lies in [0, 0.6] and the score lies in [0, 12/301], because the rate is at most 20 and the credit score at least 300. |
| FeatureEngineer.ModestLoanScenario | app.py:132-135 | A 10000 loan on 50000 income at 10% gives ratio 0.2 and flag 0. |
| FeatureEngineer.AggressiveLoanScenario | app.py:132-135 | A 35000 loan on 1000 income at 18% has its ratio capped at 0.6 and gives flag 1. |
| FeatureEngineer.Cut | app.py:151 | The result is None exactly for a value at or below the first edge. Otherwise it is bucket k, where edges[k] < x and x <= edges[k+1], or x is above the last edge for the open top bucket. |
| FeatureEngineer.CutUnique | app.py:151 | With strictly increasing edges, any bucket whose interval contains x is the one `Cut` returns, so every value above the first edge lies in exactly one bucket. |
| FeatureEngineer.Bucket | app.py:151 | The bucket is undefined (NaN in pandas) exactly when income <= 0. |
| FeatureEngineer.BucketBoundaries | app.py:151 | Low is (0, 25000], Mid is (25000, 50000], High is (50000, 100000] and Very High is above 100000, each as an if-and-only-if. |
| FeatureEngineer.BucketEdgesAreRightInclusive | app.py:151 | The edges 25000, 50000 and 100000 fall into Low, Mid and High respectively, not into the next bucket. |
| Encoder.GroupOf | app.py:139-145 | A column is given a group only when it starts with that group's prefix. It gets None exactly when it starts with none of the four prefixes. |
| Encoder.PrefixesExclusive | app.py:139-145 | No column starts with two of the four prefixes, so the order of the `elif` chain is immaterial. |
| Encoder.Indicator | app.py:140-146 | A grouped column's value is 0 or 1. It is 1 exactly when the column is the prefix followed by the selected label. |
| Encoder.OneHotEncodedSnoc | app.py:138-146 | One more loop iteration overwrites exactly the new column if it is grouped, and leaves every other key alone. |
| Encoder.OneHotEncode | app.py:138-146 | The loop leaves the dictionary equal to `OneHotEncoded`. Every grouped schema column holds its indicator, and every other key keeps its old value. |
| Encoder.OneHotLeavesOtherKeys | app.py:138-146 | An ungrouped key, or a key outside the schema, keeps the value it had before the loop. |
| Encoder.OneHotColumnsAreBits | app.py:140-146 | Every grouped schema column of the feature vector is 0 or 1. |
| Encoder.AtMostOneHot | app.py:140-146 | In a schema without duplicates, at most one column per group is 1. |
| Encoder.HotIffSelectedColumnListed | app.py:140-146 | A group has a hot column exactly when the column named after the selection is in the schema; otherwise the whole group is 0. |
| Encoder.DefaultFlag | app.py:148 | The flag is 0 or 1. It is 1 exactly when the default answer is "Yes". |
| Encoder.DefaultColumn | app.py:148 | The vector's `previous_loan_defaults_on_file_Yes` column is 1 for "Yes" and 0 otherwise. |
| Encoder.BucketFlag | app.py:151-154 | The flag is 0 or 1. It is 1 exactly when the income falls into the given bucket. |
| Encoder.BucketColumns | app.py:151-154 | Each of the Mid, High and Very High columns is 0 or 1, and at most one is 1. All are 0 exactly for income <= 25000 (Low is implicit). Each is 1 exactly on its range. |
| Encoder.Reindex | app.py:157-158 | The vector has one entry per schema column, in schema order. Each entry is the dictionary's value for that column, or 0 when the column is missing. |
| Encoder.ReindexIgnoresUnlistedKeys | app.py:157-158 | Adding or removing a key that is not a schema column does not change the vector. |
| Encoder.UserInput | app.py:86-154 | The assembled dictionary's keys are exactly the script's fourteen named keys plus the grouped columns of the schema. |
| Encoder.CappedColumnValues | app.py:86-107 | The vector's `person_age`, `person_emp_exp`, `person_income` and `loan_amnt` columns hold the capped answers. |
| Encoder.CreditColumnValues | app.py:108-110 | The vector's `loan_int_rate`, `cb_person_cred_hist_length` and `credit_score` columns hold the capped answers. |
| Encoder.DerivedColumnValues | app.py:132-135 | The vector's `loan_percent_income`, `aggressive_loan_flag` and `risk_inversion_score` columns hold the derived features. |
| Encoder.UserInputAt | app.py:86-154 | Every schema column, looked up in the assembled dictionary with a 0 default, gives that column's reference value `ColumnValue`. No later write clobbers an earlier one. |
| Encoder.UserInputReindexed | app.py:86-158 | Reindexing the assembled dictionary gives exactly the reference `FeatureVector`. |
| Explainer.FiredRulesMember | app.py:181-195 | A rule is kept by the filter exactly when it is listed and its condition holds. |
| Explainer.FiredRulesOrdered | app.py:181-195 | Filtering keeps the table order. |
| Explainer.FiredRulesSnoc | app.py:181-195 | Checking one more rule appends it exactly when it fires. |
| Explainer.Explain | app.py:178-195 | The two lists have the same length. They are exactly the risk and recommendation texts of the fired rules, in the script's check order. |
| Explainer.FiredInTableOrder | app.py:178-195 | The fired rules are the concatenation of each rule's contribution, in the order the script checks them: a rule contributes itself when it fires and nothing otherwise. |
| Explainer.RuleTableComplete | app.py:181-195 | Every rule is in the table, in the position given by its rank. |
| Explainer.TextsDistinct | app.py:182-195 | Different rules have different risk texts and different recommendations. |
| Explainer.ExplanationPaired | app.py:178-195 | The i-th risk factor and the i-th recommendation come from the same rule. |
| Explainer.RuleContributesIff | app.py:181-195 | A rule's risk text and its recommendation appear exactly when its condition holds. The fired rules appear in increasing rank. |
| Explainer.OrFallback | app.py:238-242 | The displayed list is never empty. A non-empty list is shown unchanged, and an empty one becomes the single fallback item. |
| Explainer.FallbackIffNoRuleFired | app.py:238-242 | The displayed lists are the single fallback pair exactly when no rule fires. |
| Explainer.AllRulesScenario | app.py:181-195 | Score 600, ratio 0.4, a previous default, income 20000 and one year of experience raise all five pairs, in order. |
| Pipeline.ValidatedIsDerivable | app.py:127-135 | Once the income passes validation, every derived feature is defined, because the score denominator is at least 301. |
| Pipeline.PreparedVector | app.py:127-158 | Preparation fails exactly when the capped income is 0. Otherwise the vector has one entry per schema column. |
| Pipeline.Prepare | app.py:67-158 | Writing the dictionary step by step gives `PreparedVector`: a failure exactly when the capped income is 0, and otherwise a vector of schema length equal to the reference `FeatureVector`. |
| Pipeline.Confidence | app.py:216-235 | The confidence is prob for prediction 1 and 1 - prob otherwise. It lies in [0, 1] when prob does. |
| Pipeline.Render | app.py:216-245 | The card is an approval exactly for prediction 1, with the matching confidence. A rejection shows each computed list unchanged when it is non-empty, and the single fallback item when it is empty. |
| Pipeline.Outcome | app.py:169-245 | A request fails exactly when the capped income is 0. Otherwise every derived feature is defined, the card is an approval exactly when the classifier predicts 1 on the scaled reference vector, and a rejection's confidence is 1 minus the predicted probability. |
| Pipeline.Run | app.py:169-245 | One prediction equals `Outcome`. It fails exactly when the capped income is 0, and otherwise shows a confidence in [0, 1]. |
| Pipeline.ZeroIncomeHalts | app.py:127-129 | An unparsable or non-positive income stops the request with the validation error. |
| Pipeline.RejectionExplained | app.py:178-242 | A rejection shows paired lists of equal length. They are the fallback pair exactly when no rule fires. Otherwise they are the risk and recommendation texts of the fired rules, in check order. |

## Left out

- The Streamlit page itself is not modelled: CSS, widgets, columns, the button
  and the HTML of the card. The form's answers are the `RawForm` parameter.
  - A slider always yields a number; it enters as the same `Option` as a text
    field.
- `st.error` plus `st.stop` become the `Failure(IncomeNotPositive)` result.
  The message text itself is not modelled.
- Loading the scaler, classifier and schema with `joblib` is not modelled, and
  neither are the import fallbacks around it. The scaler and classifier are
  opaque function parameters and the schema is a parameter.
- The `try`/`except` around prediction is not modelled. An exception raised
  inside the external scaler or model cannot be expressed by a total function
  parameter.
- Parsing is not modelled. `float(val)` is reduced to `Some(x)` for a
  parsable value and `None` otherwise; Python's exact parsing rules (e.g.
  "inf", "1e3", whitespace) decide which, and are not modelled.
  - A parsed NaN or infinity is not modelled: the reals have neither.
- IEEE-754 rounding is not modelled, here and in the `:.1%` formatting of the
  confidence. `FeatureEngineer.RiskInversionScore` and
  `FeatureEngineer.LoanPercentIncome` are stated over exact reals.
- pandas' internals are not modelled: the `DataFrame` construction,
  `astype(float)` and the categorical type of `pd.cut`. Only their effect on
  the values is modelled.
- `Pipeline.Run`: this member assumes that `predict_proba` returns a
  probability in [0, 1]. It does not model a classifier whose `predict`
  disagrees with its probability; the two are independent parameters.
