/**
 * Input collection: the applicant's raw form values, the `cap` helper that
 * parses and clamps each numeric field, and the per-field ranges it is
 * called with (app.py:69-74, 81-87, 94-110, 117-119).
 *
 * String-to-float parsing is not modelled: a numeric field arrives as
 * `Some(x)` when `float(val)` would succeed and as `None` when it would
 * raise. Reals stand for Python floats; NaN and infinities are not values
 * of this model.
 */
module InputCollector {
  import opened Wrappers

  function Min(a: real, b: real): (r: real)
    ensures r <= a && r <= b && (r == a || r == b)
  {
    if b < a then b else a
  }

  function Max(a: real, b: real): (r: real)
    ensures r >= a && r >= b && (r == a || r == b)
  {
    if b > a then b else a
  }

  /** `cap(val, minval, maxval)`: an unparsable value falls back to `lo`,
      then the value is clamped with `min(max(v, lo), hi)`. */
  function Cap(val: Option<real>, lo: real, hi: real): (r: real)
    ensures lo <= hi ==> lo <= r <= hi
    ensures lo <= hi && val.None? ==> r == lo
    ensures val.Some? && lo <= val.value <= hi ==> r == val.value
    ensures val.Some? && val.value < lo <= hi ==> r == lo
    ensures val.Some? && lo <= hi < val.value ==> r == hi
    ensures hi < lo ==> r == hi
  {
    var v := if val.Some? then val.value else lo;
    Min(Max(v, lo), hi)
  }

  /** Clamping a clamped value changes nothing. */
  lemma CapIdempotent(val: Option<real>, lo: real, hi: real)
    requires lo <= hi
    ensures Cap(Some(Cap(val, lo, hi)), lo, hi) == Cap(val, lo, hi)
  {
  }

  /** Clamping is monotone in the parsed value. */
  lemma CapMonotone(x: real, y: real, lo: real, hi: real)
    requires x <= y
    ensures Cap(Some(x), lo, hi) <= Cap(Some(y), lo, hi)
  {
  }

  // The ranges `cap` is called with (app.py:86-87, 101-105).
  const AgeMin: real := 18.0
  const AgeMax: real := 75.0
  const EmpExpMin: real := 0.0
  const EmpExpMax: real := 50.0
  const IncomeMin: real := 0.0
  const IncomeMax: real := 300000.0
  const LoanAmntMin: real := 0.0
  const LoanAmntMax: real := 35000.0
  const IntRateMin: real := 0.0
  const IntRateMax: real := 20.0
  const CredHistMin: real := 0.0
  const CredHistMax: real := 20.0
  const CreditScoreMin: real := 300.0
  const CreditScoreMax: real := 850.0

  /** The choices of the "Gender" select box (app.py:83). */
  datatype Gender = Female | Male {
    function Label(): string {
      match this
      case Female => "female"
      case Male => "male"
    }
  }

  /** The choices of the "Education Level" select box (app.py:84). */
  datatype Education = Associate | Bachelor | Doctorate | HighSchool | Master {
    function Label(): string {
      match this
      case Associate => "Associate"
      case Bachelor => "Bachelor"
      case Doctorate => "Doctorate"
      case HighSchool => "High School"
      case Master => "Master"
    }
  }

  /** The choices of the "Home Ownership" select box (app.py:117). */
  datatype HomeOwnership = Mortgage | OtherHome | Own | Rent {
    function Label(): string {
      match this
      case Mortgage => "MORTGAGE"
      case OtherHome => "OTHER"
      case Own => "OWN"
      case Rent => "RENT"
    }
  }

  /** The choices of the "Loan Purpose" select box (app.py:118). */
  datatype LoanIntent = ForEducation | HomeImprovement | Medical | Personal | Venture | DebtConsolidation {
    function Label(): string {
      match this
      case ForEducation => "EDUCATION"
      case HomeImprovement => "HOMEIMPROVEMENT"
      case Medical => "MEDICAL"
      case Personal => "PERSONAL"
      case Venture => "VENTURE"
      case DebtConsolidation => "DEBTCONSOLIDATION"
    }
  }

  /** The choices of the "Previous Loan Default" select box (app.py:119). */
  datatype YesNo = No | Yes {
    function Label(): string {
      match this
      case No => "No"
      case Yes => "Yes"
    }
  }

  /** What the form hands over: numeric fields possibly unparsable,
      categorical fields drawn from closed enumerations. */
  datatype RawForm = RawForm(
    age: Option<real>,
    empExp: Option<real>,
    gender: Gender,
    education: Education,
    income: Option<real>,
    loanAmnt: Option<real>,
    intRate: Option<real>,
    credHist: Option<real>,
    creditScore: Option<real>,
    home: HomeOwnership,
    intent: LoanIntent,
    previousDefault: YesNo)

  /** The applicant after every numeric field has been capped. */
  datatype Applicant = Applicant(
    age: real,
    empExp: real,
    gender: Gender,
    education: Education,
    income: real,
    loanAmnt: real,
    intRate: real,
    credHist: real,
    creditScore: real,
    home: HomeOwnership,
    intent: LoanIntent,
    previousDefault: YesNo)

  /** Every numeric field lies in the range `cap` is called with. */
  predicate InRanges(a: Applicant) {
    && AgeMin <= a.age <= AgeMax
    && EmpExpMin <= a.empExp <= EmpExpMax
    && IncomeMin <= a.income <= IncomeMax
    && LoanAmntMin <= a.loanAmnt <= LoanAmntMax
    && IntRateMin <= a.intRate <= IntRateMax
    && CredHistMin <= a.credHist <= CredHistMax
    && CreditScoreMin <= a.creditScore <= CreditScoreMax
  }

  /** `x` is what capping `raw` into `[lo, hi]` must give: `lo` for an
      unparsable field or one below the range, `hi` for one above it, and
      the parsed value itself when already in range. */
  predicate Collected(raw: Option<real>, lo: real, hi: real, x: real) {
    && lo <= x <= hi
    && (raw.None? ==> x == lo)
    && (raw.Some? && raw.value < lo ==> x == lo)
    && (raw.Some? && hi < raw.value ==> x == hi)
    && (raw.Some? && lo <= raw.value <= hi ==> x == raw.value)
  }

  /** The capped applicant (app.py:86-87, 101-110); categorical choices pass through. */
  function Collect(f: RawForm): (a: Applicant)
    ensures InRanges(a)
    ensures Collected(f.age, AgeMin, AgeMax, a.age)
    ensures Collected(f.empExp, EmpExpMin, EmpExpMax, a.empExp)
    ensures Collected(f.income, IncomeMin, IncomeMax, a.income)
    ensures Collected(f.loanAmnt, LoanAmntMin, LoanAmntMax, a.loanAmnt)
    ensures Collected(f.intRate, IntRateMin, IntRateMax, a.intRate)
    ensures Collected(f.credHist, CredHistMin, CredHistMax, a.credHist)
    ensures Collected(f.creditScore, CreditScoreMin, CreditScoreMax, a.creditScore)
    ensures a.gender == f.gender && a.education == f.education
    ensures a.home == f.home && a.intent == f.intent && a.previousDefault == f.previousDefault
  {
    Applicant(
      Cap(f.age, AgeMin, AgeMax),
      Cap(f.empExp, EmpExpMin, EmpExpMax),
      f.gender,
      f.education,
      Cap(f.income, IncomeMin, IncomeMax),
      Cap(f.loanAmnt, LoanAmntMin, LoanAmntMax),
      Cap(f.intRate, IntRateMin, IntRateMax),
      Cap(f.credHist, CredHistMin, CredHistMax),
      Cap(f.creditScore, CreditScoreMin, CreditScoreMax),
      f.home,
      f.intent,
      f.previousDefault)
  }

  /** After capping, income is never negative, so the validation `income <= 0`
      rejects exactly a zero income; an unparsable income is zero. */
  lemma CollectedIncomeNonNegative(f: RawForm)
    ensures Collect(f).income >= 0.0
    ensures Collect(f).income <= 0.0 <==> Collect(f).income == 0.0
    ensures f.income.None? ==> Collect(f).income == 0.0
  {
  }
}
