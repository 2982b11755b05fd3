/**
 * Encoding: the one-hot loop over the feature schema (app.py:138-146), the
 * default flag (app.py:148), the income-bucket indicators (app.py:151-154),
 * and the reindex of the assembled `user_input` dictionary to the schema's
 * column order with missing columns filled by 0 (app.py:157-158).
 *
 * `user_input` is a `map<string, real>`; Python's 0/1 integers are the reals
 * 0.0 and 1.0 that `astype(float)` turns them into.
 */
module Encoder {
  import opened Wrappers
  import opened InputCollector
  import opened FeatureEngineer

  predicate StartsWith(s: string, prefix: string) {
    |prefix| <= |s| && s[..|prefix|] == prefix
  }

  predicate NoDuplicates(s: seq<string>) {
    forall i, j :: 0 <= i < j < |s| ==> s[i] != s[j]
  }

  /** The four categorical groups the loop recognises by column prefix. */
  datatype Group = GenderGroup | EducationGroup | HomeOwnershipGroup | LoanIntentGroup {
    function Prefix(): string {
      match this
      case GenderGroup => "person_gender_"
      case EducationGroup => "person_education_"
      case HomeOwnershipGroup => "person_home_ownership_"
      case LoanIntentGroup => "loan_intent_"
    }
  }

  /** The group a schema column belongs to: the first prefix of the loop's
      `if/elif` chain that the column starts with. */
  function GroupOf(col: string): (g: Option<Group>)
    ensures g.Some? ==> StartsWith(col, g.value.Prefix())
    ensures g.None? <==> (forall h: Group :: !StartsWith(col, h.Prefix()))
  {
    if StartsWith(col, GenderGroup.Prefix()) then Some(GenderGroup)
    else if StartsWith(col, EducationGroup.Prefix()) then Some(EducationGroup)
    else if StartsWith(col, HomeOwnershipGroup.Prefix()) then Some(HomeOwnershipGroup)
    else if StartsWith(col, LoanIntentGroup.Prefix()) then Some(LoanIntentGroup)
    else None
  }

  /** No column starts with two of the prefixes, so the order of the
      `elif` chain does not matter. */
  lemma PrefixesExclusive(col: string, g: Group, h: Group)
    requires StartsWith(col, g.Prefix()) && StartsWith(col, h.Prefix())
    ensures g == h
  {
    assert col[0] == g.Prefix()[0] == h.Prefix()[0];
    assert col[7] == g.Prefix()[7] == h.Prefix()[7];
  }

  /** The form value selected for a group. */
  function Selected(a: Applicant, g: Group): string {
    match g
    case GenderGroup => a.gender.Label()
    case EducationGroup => a.education.Label()
    case HomeOwnershipGroup => a.home.Label()
    case LoanIntentGroup => a.intent.Label()
  }

  /** The column that is hot for a group: `f"{prefix}{selected}"`. */
  function HotColumn(a: Applicant, g: Group): (col: string)
    ensures StartsWith(col, g.Prefix())
  {
    g.Prefix() + Selected(a, g)
  }

  lemma HotColumnInItsGroup(a: Applicant, g: Group)
    ensures GroupOf(HotColumn(a, g)) == Some(g)
  {
    var col := HotColumn(a, g);
    if GroupOf(col) != Some(g) {
      PrefixesExclusive(col, GroupOf(col).value, g);
    }
  }

  /** The 0/1 value the loop writes for column `col` of group `g`. */
  function Indicator(col: string, g: Group, a: Applicant): (r: real)
    ensures r == 0.0 || r == 1.0
    ensures r == 1.0 <==> col == HotColumn(a, g)
  {
    if HotColumn(a, g) == col then 1.0 else 0.0
  }

  /** The schema columns the loop writes. */
  function GroupColumns(features: seq<string>): set<string> {
    set c | c in features && GroupOf(c).Some?
  }

  /** What the one-hot loop leaves in `m`: every grouped schema column holds
      its indicator and every other key keeps its value. */
  function OneHotEncoded(m: map<string, real>, features: seq<string>, a: Applicant): map<string, real> {
    map k | k in m.Keys + GroupColumns(features) ::
      if k in GroupColumns(features) then Indicator(k, GroupOf(k).value, a) else m[k]
  }

  lemma GroupColumnsSnoc(fs: seq<string>, col: string, k: string)
    ensures k in GroupColumns(fs + [col]) <==> k in GroupColumns(fs) || (k == col && GroupOf(col).Some?)
  {
    assert k in fs + [col] <==> k in fs || k == col;
  }

  /** One more schema column writes at most one key. */
  lemma OneHotEncodedSnoc(m: map<string, real>, fs: seq<string>, col: string, a: Applicant)
    ensures GroupOf(col).Some? ==>
      OneHotEncoded(m, fs + [col], a) == OneHotEncoded(m, fs, a)[col := Indicator(col, GroupOf(col).value, a)]
    ensures GroupOf(col).None? ==> OneHotEncoded(m, fs + [col], a) == OneHotEncoded(m, fs, a)
  {
    var before, after := OneHotEncoded(m, fs, a), OneHotEncoded(m, fs + [col], a);
    var expected := if GroupOf(col).Some? then before[col := Indicator(col, GroupOf(col).value, a)] else before;
    forall k
      ensures k in after <==> k in expected
      ensures k in after ==> after[k] == expected[k]
    {
      GroupColumnsSnoc(fs, col, k);
    }
    assert after == expected;
  }

  /** The loop `for col in features` of app.py:138-146, updating the map in place. */
  method OneHotEncode(features: seq<string>, a: Applicant, userInput: map<string, real>)
    returns (r: map<string, real>)
    ensures r == OneHotEncoded(userInput, features, a)
  {
    r := userInput;
    for i := 0 to |features|
      invariant r == OneHotEncoded(userInput, features[..i], a)
    {
      var col := features[i];
      if StartsWith(col, "person_gender_") {
        r := r[col := if "person_gender_" + a.gender.Label() == col then 1.0 else 0.0];
      } else if StartsWith(col, "person_education_") {
        r := r[col := if "person_education_" + a.education.Label() == col then 1.0 else 0.0];
      } else if StartsWith(col, "person_home_ownership_") {
        r := r[col := if "person_home_ownership_" + a.home.Label() == col then 1.0 else 0.0];
      } else if StartsWith(col, "loan_intent_") {
        r := r[col := if "loan_intent_" + a.intent.Label() == col then 1.0 else 0.0];
      }
      assert features[..i + 1] == features[..i] + [col];
      OneHotEncodedSnoc(userInput, features[..i], col, a);
    }
    assert features[..|features|] == features;
  }

  /** `int(default == "Yes")` (app.py:148). */
  function DefaultFlag(a: Applicant): (r: real)
    ensures r == 0.0 || r == 1.0
    ensures r == 1.0 <==> a.previousDefault == Yes
  {
    if a.previousDefault.Label() == "Yes" then 1.0 else 0.0
  }

  /** `int(bucket == label)` (app.py:152-154); a NaN bucket equals no label. */
  function BucketFlag(income: real, b: IncomeBucket): (r: real)
    ensures r == 0.0 || r == 1.0
    ensures r == 1.0 <==> Bucket(income) == Some(b)
  {
    if Bucket(income) == Some(b) then 1.0 else 0.0
  }

  /** The script's writes before the one-hot loop: the capped fields
      (app.py:86-87, 106-110) and the derived features (app.py:133-135). */
  function ScriptFields(a: Applicant): map<string, real>
    requires Derivable(a)
  {
    var d := Derive(a);
    map[
      "person_age" := a.age,
      "person_emp_exp" := a.empExp,
      "person_income" := a.income,
      "loan_amnt" := a.loanAmnt,
      "loan_int_rate" := a.intRate,
      "cb_person_cred_hist_length" := a.credHist,
      "credit_score" := a.creditScore,
      "loan_percent_income" := d.loanPercentIncome,
      "aggressive_loan_flag" := d.aggressiveLoanFlag,
      "risk_inversion_score" := d.riskInversionScore]
  }

  /** The script's writes after the one-hot loop: the default flag
      (app.py:148) and the bucket indicators (app.py:152-154). */
  function WithFlags(m: map<string, real>, a: Applicant): map<string, real> {
    m["previous_loan_defaults_on_file_Yes" := DefaultFlag(a)]
     ["income_bucket_Mid" := BucketFlag(a.income, Mid)]
     ["income_bucket_High" := BucketFlag(a.income, High)]
     ["income_bucket_Very High" := BucketFlag(a.income, VeryHigh)]
  }

  /** The dictionary the script has assembled just before the reindex, each
      write overriding earlier ones for the same key. It holds exactly the
      script's own keys and the grouped schema columns. */
  function UserInput(a: Applicant, features: seq<string>): (r: map<string, real>)
    requires Derivable(a)
    ensures r.Keys == NamedEntries(a).Keys + GroupColumns(features)
  {
    WithFlags(OneHotEncoded(ScriptFields(a), features, a), a)
  }

  /** `DataFrame([m]).reindex(columns=features, fill_value=0)`: one entry per
      schema column, in schema order, the dictionary's value or 0. */
  function Reindex(m: map<string, real>, features: seq<string>): (v: seq<real>)
    ensures |v| == |features|
    ensures forall i :: 0 <= i < |features| ==> v[i] == if features[i] in m then m[features[i]] else 0.0
  {
    if features == [] then []
    else
      var last := features[|features| - 1];
      Reindex(m, features[..|features| - 1]) + [if last in m then m[last] else 0.0]
  }

  /** Keys that are not schema columns do not reach the vector. */
  lemma ReindexIgnoresUnlistedKeys(m: map<string, real>, features: seq<string>, k: string, x: real)
    requires k !in features
    ensures Reindex(m[k := x], features) == Reindex(m, features)
    ensures Reindex(m - {k}, features) == Reindex(m, features)
  {
    var v, w, u := Reindex(m[k := x], features), Reindex(m, features), Reindex(m - {k}, features);
    forall i | 0 <= i < |features|
      ensures v[i] == w[i] && u[i] == w[i]
    {
      assert features[i] != k;
    }
  }

  function Lookup(m: map<string, real>, k: string): real {
    if k in m then m[k] else 0.0
  }

  /** The script's own keys: everything it writes except the one-hot columns. */
  function NamedEntries(a: Applicant): map<string, real>
    requires Derivable(a)
  {
    WithFlags(ScriptFields(a), a)
  }

  /**
   * The value the model receives for a schema column, column by column:
   * its indicator for a grouped column, otherwise the value of the script's
   * own key of that name, and 0 for a column the script never writes.
   */
  function ColumnValue(a: Applicant, col: string): real
    requires Derivable(a)
  {
    match GroupOf(col)
    case Some(g) => Indicator(col, g, a)
    case None => Lookup(NamedEntries(a), col)
  }

  /** The feature vector, as the schema-ordered sequence of column values. */
  function FeatureVector(a: Applicant, features: seq<string>): seq<real>
    requires Derivable(a)
  {
    seq(|features|, i requires 0 <= i < |features| => ColumnValue(a, features[i]))
  }

  /** A column whose leading characters differ from every prefix at a
      distinguishing position belongs to no group. */
  lemma UngroupedByLeadingChars(col: string)
    requires |col| >= 9
    requires col[0] == 'l' ==> col[8] != 'e'
    requires col[0] == 'p' ==> col[7] != 'g' && col[7] != 'h' && (col[7] != 'e' || col[8] != 'd')
    ensures GroupOf(col).None?
  {
  }

  /** None of the script's own keys starts with a categorical prefix, so the
      one-hot loop never overwrites them and they never take an indicator. */
  lemma CappedColumnsAreUngrouped()
    ensures GroupOf("person_age").None? && GroupOf("person_emp_exp").None?
    ensures GroupOf("person_income").None? && GroupOf("loan_amnt").None?
  {
    UngroupedByLeadingChars("person_age");
    UngroupedByLeadingChars("person_emp_exp");
    UngroupedByLeadingChars("person_income");
    UngroupedByLeadingChars("loan_amnt");
  }

  lemma CreditColumnsAreUngrouped()
    ensures GroupOf("loan_int_rate").None? && GroupOf("cb_person_cred_hist_length").None?
    ensures GroupOf("credit_score").None?
  {
    UngroupedByLeadingChars("loan_int_rate");
    UngroupedByLeadingChars("cb_person_cred_hist_length");
    UngroupedByLeadingChars("credit_score");
  }

  lemma DerivedColumnsAreUngrouped()
    ensures GroupOf("loan_percent_income").None? && GroupOf("aggressive_loan_flag").None?
    ensures GroupOf("risk_inversion_score").None?
  {
    UngroupedByLeadingChars("loan_percent_income");
    UngroupedByLeadingChars("aggressive_loan_flag");
    UngroupedByLeadingChars("risk_inversion_score");
  }

  lemma FlagColumnsAreUngrouped()
    ensures GroupOf("previous_loan_defaults_on_file_Yes").None?
    ensures GroupOf("income_bucket_Mid").None? && GroupOf("income_bucket_High").None?
    ensures GroupOf("income_bucket_Very High").None?
  {
    UngroupedByLeadingChars("previous_loan_defaults_on_file_Yes");
    UngroupedByLeadingChars("income_bucket_Mid");
    UngroupedByLeadingChars("income_bucket_High");
    UngroupedByLeadingChars("income_bucket_Very High");
  }

  /** The vector gives each capped field its capped value. */
  lemma CappedColumnValues(a: Applicant)
    requires Derivable(a)
    ensures ColumnValue(a, "person_age") == a.age && ColumnValue(a, "person_emp_exp") == a.empExp
    ensures ColumnValue(a, "person_income") == a.income && ColumnValue(a, "loan_amnt") == a.loanAmnt
  {
    CappedColumnsAreUngrouped();
  }

  lemma CreditColumnValues(a: Applicant)
    requires Derivable(a)
    ensures ColumnValue(a, "loan_int_rate") == a.intRate
    ensures ColumnValue(a, "cb_person_cred_hist_length") == a.credHist
    ensures ColumnValue(a, "credit_score") == a.creditScore
  {
    CreditColumnsAreUngrouped();
  }

  /** The vector gives the derived columns the values of app.py:132-135. */
  lemma DerivedColumnValues(a: Applicant)
    requires Derivable(a)
    ensures ColumnValue(a, "loan_percent_income") == Derive(a).loanPercentIncome
    ensures ColumnValue(a, "aggressive_loan_flag") == Derive(a).aggressiveLoanFlag
    ensures ColumnValue(a, "risk_inversion_score") == Derive(a).riskInversionScore
  {
    DerivedColumnsAreUngrouped();
  }

  /** A grouped schema column holds its indicator in the assembled dictionary. */
  lemma UserInputAtGrouped(a: Applicant, features: seq<string>, col: string)
    requires Derivable(a) && col in features && GroupOf(col).Some?
    ensures Lookup(UserInput(a, features), col) == Indicator(col, GroupOf(col).value, a)
  {
    var encoded := OneHotEncoded(ScriptFields(a), features, a);
    assert col in GroupColumns(features);
    FlagsKeepGrouped(encoded, a, col);
  }

  /** The writes after the loop never touch a grouped column. */
  lemma FlagsKeepGrouped(m: map<string, real>, a: Applicant, col: string)
    requires col in m && GroupOf(col).Some?
    ensures col in WithFlags(m, a) && WithFlags(m, a)[col] == m[col]
  {
    FlagColumnsAreUngrouped();
  }

  /** Any other column holds what the script's own writes left there. */
  lemma UserInputAtUngrouped(a: Applicant, features: seq<string>, col: string)
    requires Derivable(a) && GroupOf(col).None?
    ensures Lookup(UserInput(a, features), col) == Lookup(NamedEntries(a), col)
  {
  }

  /** Each schema column of the assembled dictionary holds its column value. */
  lemma UserInputAt(a: Applicant, features: seq<string>, col: string)
    requires Derivable(a) && col in features
    ensures Lookup(UserInput(a, features), col) == ColumnValue(a, col)
  {
    if GroupOf(col).Some? {
      UserInputAtGrouped(a, features, col);
    } else {
      UserInputAtUngrouped(a, features, col);
    }
  }


  /** The dictionary reindexed to the schema is the column-by-column vector:
      the script's writes never clobber one another, every schema column gets
      its value and an unset column gets 0. */
  lemma {:induction false} UserInputReindexed(a: Applicant, features: seq<string>)
    requires Derivable(a)
    ensures Reindex(UserInput(a, features), features) == FeatureVector(a, features)
  {
    var v, w := Reindex(UserInput(a, features), features), FeatureVector(a, features);
    forall i | 0 <= i < |features|
      ensures v[i] == w[i]
    {
      UserInputAt(a, features, features[i]);
    }
  }

  /** A schema column of no group keeps whatever the dictionary held, and
      so does every key that is not a schema column (app.py:138-146). */
  lemma OneHotLeavesOtherKeys(m: map<string, real>, features: seq<string>, a: Applicant, k: string)
    requires k in m && (GroupOf(k).None? || k !in features)
    ensures k in OneHotEncoded(m, features, a) && OneHotEncoded(m, features, a)[k] == m[k]
  {
  }

  /** Every grouped schema column gets a 0/1 value. */
  lemma OneHotColumnsAreBits(a: Applicant, features: seq<string>, i: nat)
    requires Derivable(a) && i < |features| && GroupOf(features[i]).Some?
    ensures FeatureVector(a, features)[i] == 0.0 || FeatureVector(a, features)[i] == 1.0
  {
  }

  /** Within one group, at most one schema column is hot. */
  lemma AtMostOneHot(a: Applicant, features: seq<string>, g: Group, i: nat, j: nat)
    requires Derivable(a) && NoDuplicates(features)
    requires i < |features| && j < |features|
    requires GroupOf(features[i]) == Some(g) && GroupOf(features[j]) == Some(g)
    requires FeatureVector(a, features)[i] == 1.0 && FeatureVector(a, features)[j] == 1.0
    ensures i == j
  {
    assert features[i] == HotColumn(a, g) == features[j];
  }

  /** A group has a hot schema column exactly when the column named after the
      selected value is in the schema; otherwise the whole group is 0. */
  lemma HotIffSelectedColumnListed(a: Applicant, features: seq<string>, g: Group)
    requires Derivable(a)
    ensures (exists i :: 0 <= i < |features| && GroupOf(features[i]) == Some(g) && FeatureVector(a, features)[i] == 1.0)
        <==> HotColumn(a, g) in features
  {
    var v := FeatureVector(a, features);
    if HotColumn(a, g) in features {
      var i :| 0 <= i < |features| && features[i] == HotColumn(a, g);
      HotColumnInItsGroup(a, g);
      assert GroupOf(features[i]) == Some(g) && v[i] == 1.0;
    }
  }

  /** `previous_loan_defaults_on_file_Yes` is 1 iff the default choice is "Yes", else 0. */
  lemma DefaultColumn(a: Applicant)
    requires Derivable(a)
    ensures ColumnValue(a, "previous_loan_defaults_on_file_Yes") == if a.previousDefault == Yes then 1.0 else 0.0
  {
    FlagColumnsAreUngrouped();
  }

  /** The three bucket columns form a one-hot group with `Low` left implicit:
      at most one is 1, and all are 0 exactly for an income up to 25000. */
  lemma BucketColumns(a: Applicant)
    requires Derivable(a)
    ensures var mid, high, veryHigh := ColumnValue(a, "income_bucket_Mid"), ColumnValue(a, "income_bucket_High"),
                                       ColumnValue(a, "income_bucket_Very High");
      && (mid == 0.0 || mid == 1.0) && (high == 0.0 || high == 1.0) && (veryHigh == 0.0 || veryHigh == 1.0)
      && mid + high + veryHigh <= 1.0
      && (mid == high == veryHigh == 0.0 <==> a.income <= 25000.0)
      && (mid == 1.0 <==> 25000.0 < a.income <= 50000.0)
      && (high == 1.0 <==> 50000.0 < a.income <= 100000.0)
      && (veryHigh == 1.0 <==> 100000.0 < a.income)
  {
    FlagColumnsAreUngrouped();
    BucketBoundaries(a.income);
  }
}
