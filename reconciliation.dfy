/** The reconciliation field map: how one raw row of government- and
    company-reported revenue becomes a canonical record, and the per-type
    rule that decides whether a variance between the two is "material". */
module Reconciliation {
  import opened Js

  /** A raw reconciliation row: column name to cell text. A column that is
      absent reads as `undefined`. */
  type Row = map<string, string>

  function Field(d: Row, name: string): JsValue {
    if name in d then Str(d[name]) else Undefined
  }

  const REPORTED_GOV := "Government Reported"
  const REPORTED_CO := "Company Reported"
  const VARIANCE_DOLLARS := "Variance Dollars"
  const VARIANCE_PERCENT := "Variance Percent"
  const N_A := "N/A"

  /** A threshold or floor: a number, or the sentinel 'N/A'. */
  datatype Limit = Limit(amount: real) | NotApplicable

  datatype Rule = Rule(threshold: Limit, floor: Limit, name: string)

  /** The material-variance rule table, one rule per revenue type. */
  const MATERIAL_VARIANCES: map<string, Rule> := map[
    "Royalties" := Rule(Limit(1.0), Limit(100000.0), "Royalties"),
    "Rents" := Rule(Limit(2.0), Limit(50000.0), "Rents"),
    "Bonus" := Rule(Limit(2.0), Limit(100000.0), "Bonuses"),
    "Other Revenue" := Rule(Limit(3.0), Limit(50000.0), "Other revenue"),
    "Offshore Inspection Fee" := Rule(Limit(2.0), Limit(20000.0), "Offshore inspection fees"),
    "ONRR Civil Penalties" := Rule(Limit(1.0), Limit(1000.0), "Civil penalties"),
    "Bonus & 1st Year Rental" := Rule(Limit(2.0), Limit(10000.0), "BLM bonus and first year rentals"),
    "Permit Fees" := Rule(Limit(3.0), Limit(10000.0), "Permit fees"),
    "Renewables" := Rule(NotApplicable, NotApplicable, "BLM renewables"),
    "AML Fees" := Rule(Limit(2.0), Limit(100000.0), "OSMRE AML fees"),
    "OSMRE Civil Penalties" := Rule(Limit(3.0), Limit(0.0), "OSMRE civil penalties"),
    "Corporate Income Tax" := Rule(Limit(1.0), Limit(100000.0), "Taxes")
  ]

  /** Reading `.threshold` of the rule of a type the table lacks throws. */
  datatype Error = UnknownRevenueType(key: string)

  /** The property key `d.Type` looks up: a missing column is `undefined`,
      which names no rule. */
  function TypeKey(d: Row): string {
    if "Type" in d then d["Type"] else "undefined"
  }

  /** `parseNA(field)(d)`: the literal "N/A" is null; anything else goes to
      the number parser, which is a parameter of the model. */
  function ParseNA(field: string, parseNumber: JsValue -> Number, d: Row): (r: Option<Number>)
    ensures r.None? <==> field in d && d[field] == N_A
    ensures r.Some? ==> r.value == parseNumber(Field(d, field))
  {
    var value := Field(d, field);
    if value == Str(N_A) then None else Some(parseNumber(value))
  }

  /** `reported_note`: the raw company-reported value when `isNaN` holds of
      it, null otherwise. */
  function ReportedNote(d: Row, stringToNumber: string -> Number): (r: Option<JsValue>)
    ensures r.Some? <==> (REPORTED_CO in d ==> stringToNumber(d[REPORTED_CO]).NaN?)
    ensures r.Some? ==> r.value == Field(d, REPORTED_CO)
  {
    var str := Field(d, REPORTED_CO);
    if ToNumber(str, stringToNumber).NaN? then Some(str) else None
  }

  /** `x > limit`; comparing with the string 'N/A' converts it to NaN, so
      it is false. */
  predicate Exceeds(x: Number, limit: Limit) {
    match limit
    case NotApplicable => false
    case Limit(amount) => GreaterThan(x, amount)
  }

  /** The decision of `isMaterialVariance` once the rule is found. */
  function Classify(rule: Rule, variance: Number, delta: Number): (m: int)
    ensures m == 0 || m == 1
    ensures m == 1 <==>
      && rule.threshold.Limit? && rule.floor.Limit?
      && variance.Finite? && delta.Finite?
      && variance.value > rule.threshold.amount
      && delta.value > rule.floor.amount
  {
    if Exceeds(variance, rule.threshold) && Exceeds(delta, rule.floor) then 1 else 0
  }

  function Gov(d: Row, stringToNumber: string -> Number): Number {
    ToNumber(Field(d, REPORTED_GOV), stringToNumber)
  }

  function Co(d: Row, stringToNumber: string -> Number): Number {
    ToNumber(Field(d, REPORTED_CO), stringToNumber)
  }

  function Percent(d: Row, stringToNumber: string -> Number): Number {
    ToNumber(Field(d, VARIANCE_PERCENT), stringToNumber)
  }

  /** `variance_material`: 1 exactly when the signed variance percent is
      above the type's threshold and |gov - co| is above its floor, both
      strictly; an unknown type is an error, never a silent 0. */
  function IsMaterialVariance(d: Row, stringToNumber: string -> Number): (r: Result<int, Error>)
    ensures r.Err? <==> TypeKey(d) !in MATERIAL_VARIANCES
    ensures r.Err? ==> r.error == UnknownRevenueType(TypeKey(d))
    ensures r.Ok? ==> r.value == 0 || r.value == 1
    ensures r == Ok(1) <==>
      && TypeKey(d) in MATERIAL_VARIANCES
      && var rule := MATERIAL_VARIANCES[TypeKey(d)];
      var gov, co, pct := Gov(d, stringToNumber), Co(d, stringToNumber), Percent(d, stringToNumber);
      && rule.threshold.Limit? && rule.floor.Limit?
      && gov.Finite? && co.Finite? && pct.Finite?
      && pct.value > rule.threshold.amount
      && AbsReal(gov.value - co.value) > rule.floor.amount
  {
    var gov := Gov(d, stringToNumber);
    var co := Co(d, stringToNumber);
    var variance := Percent(d, stringToNumber);
    var delta := Abs(Sub(gov, co));
    var key := TypeKey(d);
    if key !in MATERIAL_VARIANCES then Err(UnknownRevenueType(key))
    else Ok(Classify(MATERIAL_VARIANCES[key], variance, delta))
  }

  /** The canonical record the field map produces. */
  datatype Canonical = Canonical(
    year: JsValue,
    company: JsValue,
    revenueType: JsValue,
    reportedGov: Option<Number>,
    reportedCompany: Option<Number>,
    reportedNote: Option<JsValue>,
    varianceDollars: Option<Number>,
    variancePercent: Option<Number>,
    varianceMaterial: int)

  /** Applying the whole field map to one row; the record fails exactly
      when the materiality rule lookup does. */
  function Transform(d: Row, parseNumber: JsValue -> Number, stringToNumber: string -> Number)
    : (r: Result<Canonical, Error>)
    ensures r.Err? <==> TypeKey(d) !in MATERIAL_VARIANCES
    ensures r.Ok? ==>
      && r.value.year == Field(d, "Year")
      && r.value.company == Field(d, "Company")
      && r.value.revenueType == Field(d, "Type")
      && r.value.reportedGov == ParseNA(REPORTED_GOV, parseNumber, d)
      && r.value.reportedCompany == ParseNA(REPORTED_CO, parseNumber, d)
      && r.value.reportedNote == ReportedNote(d, stringToNumber)
      && r.value.varianceDollars == ParseNA(VARIANCE_DOLLARS, parseNumber, d)
      && r.value.variancePercent == ParseNA(VARIANCE_PERCENT, parseNumber, d)
      && IsMaterialVariance(d, stringToNumber) == Ok(r.value.varianceMaterial)
  {
    match IsMaterialVariance(d, stringToNumber)
    case Err(e) => Err(e)
    case Ok(material) =>
      Ok(Canonical(
        Field(d, "Year"),
        Field(d, "Company"),
        Field(d, "Type"),
        ParseNA(REPORTED_GOV, parseNumber, d),
        ParseNA(REPORTED_CO, parseNumber, d),
        ReportedNote(d, stringToNumber),
        ParseNA(VARIANCE_DOLLARS, parseNumber, d),
        ParseNA(VARIANCE_PERCENT, parseNumber, d),
        material))
  }

  /** Every numeric threshold in the table is positive. */
  lemma ThresholdsPositive(key: string)
    requires key in MATERIAL_VARIANCES
    ensures MATERIAL_VARIANCES[key].threshold.Limit? ==> MATERIAL_VARIANCES[key].threshold.amount >= 1.0
  {
  }

  /** The signed percent is compared, so a variance percent of zero or
      below is never material, whatever the dollar delta. */
  lemma NonPositivePercentNeverMaterial(d: Row, stringToNumber: string -> Number)
    requires Percent(d, stringToNumber).Finite? && Percent(d, stringToNumber).value <= 0.0
    ensures IsMaterialVariance(d, stringToNumber) != Ok(1)
  {
    if TypeKey(d) in MATERIAL_VARIANCES {
      ThresholdsPositive(TypeKey(d));
    }
  }

  /** The Renewables rule is 'N/A' on both limits: never material. */
  lemma RenewablesNeverMaterial(d: Row, stringToNumber: string -> Number)
    requires TypeKey(d) == "Renewables"
    ensures IsMaterialVariance(d, stringToNumber) == Ok(0)
  {
  }

  /** Fail closed: a known type with any of gov, co or percent not a number
      classifies as 0. */
  lemma NaNNeverMaterial(d: Row, stringToNumber: string -> Number)
    requires TypeKey(d) in MATERIAL_VARIANCES
    requires Gov(d, stringToNumber).NaN? || Co(d, stringToNumber).NaN? || Percent(d, stringToNumber).NaN?
    ensures IsMaterialVariance(d, stringToNumber) == Ok(0)
  {
  }

  /** Raising the variance percent or the dollar delta of a material
      variance keeps it material. */
  lemma MaterialIsMonotonic(rule: Rule, variance: Number, delta: Number, variance': Number, delta': Number)
    requires Classify(rule, variance, delta) == 1
    requires variance'.Finite? && delta'.Finite?
    requires variance.value <= variance'.value && delta.value <= delta'.value
    ensures Classify(rule, variance', delta') == 1
  {
  }

  /** OSMRE civil penalties have floor 0: any nonzero difference with a
      percent above 3 is material. */
  lemma OsmreCivilPenaltiesAnyDelta(d: Row, stringToNumber: string -> Number)
    requires TypeKey(d) == "OSMRE Civil Penalties"
    requires Gov(d, stringToNumber).Finite? && Co(d, stringToNumber).Finite?
    requires Gov(d, stringToNumber) != Co(d, stringToNumber)
    requires GreaterThan(Percent(d, stringToNumber), 3.0)
    ensures IsMaterialVariance(d, stringToNumber) == Ok(1)
  {
  }

  /** When the two number conversions agree on whether the company figure
      is numeric and it is not 'N/A', a record has either a numeric company
      figure or a note, never both and never neither. */
  lemma NoteExcludesCompanyFigure(d: Row, parseNumber: JsValue -> Number, stringToNumber: string -> Number)
    requires TypeKey(d) in MATERIAL_VARIANCES
    requires Field(d, REPORTED_CO) != Str(N_A)
    requires parseNumber(Field(d, REPORTED_CO)).NaN? == ToNumber(Field(d, REPORTED_CO), stringToNumber).NaN?
    ensures Transform(d, parseNumber, stringToNumber).Ok?
    ensures var rec := Transform(d, parseNumber, stringToNumber).value;
      (rec.reportedCompany.Some? && rec.reportedCompany.value.Finite?) != rec.reportedNote.Some?
  {
  }

  /** When `parse.number` reads a figure that `Number()` rejects (a figure
      with thousands separators, say), the record carries both the figure
      and the note. */
  lemma BothFigureAndNote(d: Row, parseNumber: JsValue -> Number, stringToNumber: string -> Number)
    requires TypeKey(d) in MATERIAL_VARIANCES
    requires Field(d, REPORTED_CO) != Str(N_A)
    requires parseNumber(Field(d, REPORTED_CO)).Finite?
    requires ToNumber(Field(d, REPORTED_CO), stringToNumber).NaN?
    ensures Transform(d, parseNumber, stringToNumber).Ok?
    ensures var rec := Transform(d, parseNumber, stringToNumber).value;
      && rec.reportedCompany == Some(parseNumber(Field(d, REPORTED_CO)))
      && rec.reportedNote == Some(Field(d, REPORTED_CO))
  {
  }
}
