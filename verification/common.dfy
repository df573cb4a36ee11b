/**
 * The pieces both builds of the dimensional-weight calculator share: reading
 * the form (parsed numbers and the pounds/ounces checkboxes), the rounding
 * helpers built on JavaScript's Math functions, the submit-path validation,
 * and the UPS/FedEx billing rule, which both builds write the same way.
 *
 * Floating point is abstracted: every number is an exact `real`.
 */
module Common {

  datatype Option<T> = None | Some(value: T)

  /** What `parseFloat` makes of one form field's text: a number, or NaN. */
  datatype ParsedFloat = Number(value: real) | NaN

  /** The unit the actual weight was entered in. */
  datatype WeightUnit = Pounds | Ounces

  /** The reasons the submit handler stops before computing anything. */
  datatype ValidationError = MissingUnit | InvalidNumber | InvalidGeometry

  datatype Result<T> = Ok(value: T) | Err(error: ValidationError)

  /** One submit of the form: the four parsed fields and the two checkboxes. */
  datatype FormSnapshot = FormSnapshot(
    length: ParsedFloat,
    width: ParsedFloat,
    height: ParsedFloat,
    actualWeight: ParsedFloat,
    poundsChecked: bool,
    ouncesChecked: bool)

  /** A package that passed validation: dimensions in inches, weight as entered. */
  datatype Package = Package(length: real, width: real, height: real, actualWeight: real, unit: WeightUnit)

  /** Number of ounces in a pound. */
  const OuncesPerPound: real := 16.0

  /** A NaN parse becomes "no value"; every number, 0 included, is kept. */
  function ParseInputValue(parsed: ParsedFloat): (r: Option<real>)
    ensures r.None? <==> parsed.NaN?
    ensures parsed.Number? ==> r.Some? && r.value == parsed.value
  {
    match parsed
    case NaN => None
    case Number(v) => Some(v)
  }

  lemma ParsedZeroIsAValue()
    ensures ParseInputValue(Number(0.0)) == Some(0.0)
    ensures ParseInputValue(NaN) != ParseInputValue(Number(0.0))
  {
  }

  /** Pounds wins when both boxes are checked; neither box gives no unit. */
  function GetWeightUnit(poundsChecked: bool, ouncesChecked: bool): (r: Option<WeightUnit>)
    ensures r == Some(Pounds) <==> poundsChecked
    ensures r == Some(Ounces) <==> !poundsChecked && ouncesChecked
    ensures r == None <==> !poundsChecked && !ouncesChecked
  {
    if poundsChecked then Some(Pounds)
    else if ouncesChecked then Some(Ounces)
    else None
  }

  function OuncesToPounds(ounces: real): (pounds: real)
    ensures pounds * OuncesPerPound == ounces
    ensures ounces == OuncesPerPound ==> pounds == 1.0
  {
    ounces / OuncesPerPound
  }

  /** `Math.ceil`: the least integer not below `weight`. */
  function RoundUpToNearestPound(weight: real): (n: int)
    ensures weight <= n as real < weight + 1.0
  {
    -((-weight).Floor)
  }

  /** `Math.round`: the nearest integer, a half rounded towards +infinity. */
  function RoundToNearestPound(weight: real): (n: int)
    ensures weight - 0.5 < n as real <= weight + 0.5
  {
    (weight + 0.5).Floor
  }

  /** `Math.max` on two numbers. */
  function Max(a: real, b: real): (m: real)
    ensures m >= a && m >= b
    ensures m == a || m == b
  {
    if a >= b then a else b
  }

  /** The bounds above pin the rounding results down: each is the only integer meeting them. */
  lemma RoundingIsUnique(weight: real, k: int)
    ensures weight <= k as real < weight + 1.0 ==> k == RoundUpToNearestPound(weight)
    ensures weight - 0.5 < k as real <= weight + 0.5 ==> k == RoundToNearestPound(weight)
  {
  }

  lemma RoundHalfUp(k: int)
    ensures RoundToNearestPound(k as real + 0.5) == k + 1
    ensures RoundToNearestPound(k as real - 0.5) == k
  {
  }

  lemma RoundUpIsMonotone(x: real, y: real)
    requires x <= y
    ensures RoundUpToNearestPound(x) <= RoundUpToNearestPound(y)
  {
  }

  /**
   * The submit handler's checks, in its order: a unit must be chosen, then all
   * four fields must parse, then the length must be the longest side. Zero and
   * negative values are not rejected.
   */
  function Validate(form: FormSnapshot): (r: Result<Package>)
    ensures r == Err(MissingUnit) <==> !form.poundsChecked && !form.ouncesChecked
    ensures r == Err(InvalidNumber) <==>
      && (form.poundsChecked || form.ouncesChecked)
      && (form.length.NaN? || form.width.NaN? || form.height.NaN? || form.actualWeight.NaN?)
    ensures r == Err(InvalidGeometry) <==>
      && (form.poundsChecked || form.ouncesChecked)
      && form.length.Number? && form.width.Number? && form.height.Number? && form.actualWeight.Number?
      && (form.length.value < form.width.value || form.length.value < form.height.value)
    ensures r.Ok? ==>
      && form.length.Number? && form.width.Number? && form.height.Number? && form.actualWeight.Number?
      && r.value.length == form.length.value
      && r.value.width == form.width.value
      && r.value.height == form.height.value
      && r.value.actualWeight == form.actualWeight.value
      && r.value.length >= r.value.width && r.value.length >= r.value.height
      && r.value.unit == (if form.poundsChecked then Pounds else Ounces)
  {
    var length := ParseInputValue(form.length);
    var width := ParseInputValue(form.width);
    var height := ParseInputValue(form.height);
    var actualWeight := ParseInputValue(form.actualWeight);
    var unit := GetWeightUnit(form.poundsChecked, form.ouncesChecked);
    if unit.None? then Err(MissingUnit)
    else if length.None? || width.None? || height.None? || actualWeight.None? then Err(InvalidNumber)
    else if length.value < width.value || length.value < height.value then Err(InvalidGeometry)
    else Ok(Package(length.value, width.value, height.value, actualWeight.value, unit.value))
  }

  /** Length times width times height, in cubic inches; no side is required to be positive. */
  function CubicSize(p: Package): (c: real)
    ensures p.length == 0.0 || p.width == 0.0 || p.height == 0.0 ==> c == 0.0
    ensures p.length >= 0.0 && p.width >= 0.0 && p.height >= 0.0 ==> c >= 0.0
  {
    p.length * p.width * p.height
  }

  /** A package no larger in any dimension (all of them non-negative) has no larger cubic size. */
  lemma CubicSizeIsMonotone(p: Package, q: Package)
    requires 0.0 <= p.length <= q.length
    requires 0.0 <= p.width <= q.width
    requires 0.0 <= p.height <= q.height
    ensures CubicSize(p) <= CubicSize(q)
  {
  }

  /**
   * UPS/FedEx: the weight entered in ounces is turned into pounds, then the
   * greater of it and the dimensional weight is rounded up to a whole pound.
   */
  function UPSFedExBilledWeight(actualWeight: real, dimWeight: real, isOunces: bool): (billed: int)
    ensures var pounds := if isOunces then actualWeight / OuncesPerPound else actualWeight;
      && billed as real >= pounds
      && billed as real >= dimWeight
      && (billed as real - 1.0 < pounds || billed as real - 1.0 < dimWeight)
  {
    var pounds := if isOunces then OuncesToPounds(actualWeight) else actualWeight;
    RoundUpToNearestPound(Max(pounds, dimWeight))
  }

  /** Entering ounces bills exactly what entering the same weight in pounds would. */
  lemma UPSFedExOuncesAreSixteenthPounds(ounces: real, dimWeight: real)
    ensures UPSFedExBilledWeight(ounces, dimWeight, true) == UPSFedExBilledWeight(ounces / 16.0, dimWeight, false)
  {
  }

  /** More weight or more dimensional weight never lowers the UPS/FedEx bill. */
  lemma UPSFedExIsMonotone(w: real, d: real, w': real, d': real, isOunces: bool)
    requires w <= w' && d <= d'
    ensures UPSFedExBilledWeight(w, d, isOunces) <= UPSFedExBilledWeight(w', d', isOunces)
  {
  }
}
