/**
 * The older build of the calculator (src/index.ts). Dimensional weight is
 * left unrounded, USPS and Firstmile always bill the weight as entered, and
 * weights are displayed rounded to the nearest whole unit.
 */
module SrcCalculator {
  import opened Common
  import Decimal

  /** What the submit handler has computed once the inputs are valid. */
  datatype Breakdown = Breakdown(
    unit: WeightUnit,
    actualWeight: real,
    cubicSize: real,
    upsDim: real,
    fedexDim: real,
    upsBilled: int,
    fedexBilled: int,
    uspsBilled: real,
    firstmileBilled: real)

  /**
   * The weight rounded to the nearest whole number (a half goes up) followed
   * by " lbs" in pounds mode and " oz" otherwise.
   */
  function FormatActualWeight(weight: real, isPounds: bool): (s: string)
    ensures var unit := if isPounds then " lbs" else " oz";
      && |s| > |unit|
      && s[|s| - |unit|..] == unit
      && s[..|s| - |unit|] == Decimal.IntToString(RoundToNearestPound(weight))
      && Decimal.ParseInt(s[..|s| - |unit|]) == Some(RoundToNearestPound(weight))
  {
    var n := RoundToNearestPound(weight);
    var text := Decimal.IntToString(n);
    var unit := if isPounds then " lbs" else " oz";
    assert (text + unit)[..|text|] == text;
    text + unit
  }

  /** USPS/Firstmile bill the weight as entered, in either unit mode. */
  function USPSFirstmileBilledWeight(actualWeight: real, isOunces: bool): (billed: real)
    ensures billed == actualWeight
  {
    if isOunces then actualWeight else actualWeight
  }

  /** The calculation after validation, as lines 110-129 of the handler run it. */
  function Compute(p: Package): (b: Breakdown)
    ensures b.unit == p.unit && b.actualWeight == p.actualWeight
    ensures b.cubicSize == p.length * p.width * p.height
    ensures b.upsDim == b.fedexDim == b.cubicSize / 139.0
    ensures b.uspsBilled == b.firstmileBilled == p.actualWeight
    ensures b.upsBilled == b.fedexBilled
    ensures var pounds := if p.unit == Ounces then p.actualWeight / 16.0 else p.actualWeight;
      && b.upsBilled as real >= pounds
      && b.upsBilled as real >= b.upsDim
      && b.upsBilled as real < Max(pounds, b.upsDim) + 1.0
  {
    var isOunces := p.unit == Ounces;
    var cubicSize := CubicSize(p);
    var dimWeightUPS := cubicSize / 139.0;
    var dimWeightFedEx := cubicSize / 139.0;
    Breakdown(
      p.unit, p.actualWeight, cubicSize, dimWeightUPS, dimWeightFedEx,
      UPSFedExBilledWeight(p.actualWeight, dimWeightUPS, isOunces),
      UPSFedExBilledWeight(p.actualWeight, dimWeightFedEx, isOunces),
      USPSFirstmileBilledWeight(p.actualWeight, isOunces),
      USPSFirstmileBilledWeight(p.actualWeight, isOunces))
  }

  /** The submit handler: validate in order, then compute; a failure computes nothing. */
  function Submit(form: FormSnapshot): (r: Result<Breakdown>)
    ensures r.Err? <==> Validate(form).Err?
    ensures r.Err? ==> r.error == Validate(form).error
    ensures r.Ok? ==>
      && form.length.Number? && form.width.Number? && form.height.Number? && form.actualWeight.Number?
      && form.length.value >= form.width.value && form.length.value >= form.height.value
      && r.value == Compute(Package(form.length.value, form.width.value, form.height.value,
                                    form.actualWeight.value, if form.poundsChecked then Pounds else Ounces))
  {
    var checked := Validate(form);
    if checked.Err? then Err(checked.error) else Ok(Compute(checked.value))
  }

  /** A length shorter than the width or the height never yields a weight. */
  lemma ShortLengthIsRejected(form: FormSnapshot)
    requires form.poundsChecked || form.ouncesChecked
    requires form.length.Number? && form.width.Number? && form.height.Number? && form.actualWeight.Number?
    requires form.length.value < form.width.value || form.length.value < form.height.value
    ensures Submit(form) == Err(InvalidGeometry)
  {
  }

  /** Whatever the box and the unit, USPS and Firstmile bill exactly the entered number. */
  lemma PostalBillsEnteredWeight(form: FormSnapshot)
    requires Submit(form).Ok?
    ensures Submit(form).value.uspsBilled == form.actualWeight.value
    ensures Submit(form).value.firstmileBilled == form.actualWeight.value
  {
  }

  /** A bigger, heavier package (non-negative sides, same unit) never costs less at UPS/FedEx. */
  lemma GroundBillIsMonotone(p: Package, q: Package)
    requires p.unit == q.unit
    requires 0.0 <= p.length <= q.length
    requires 0.0 <= p.width <= q.width
    requires 0.0 <= p.height <= q.height
    requires p.actualWeight <= q.actualWeight
    ensures Compute(p).upsBilled <= Compute(q).upsBilled
  {
    CubicSizeIsMonotone(p, q);
    UPSFedExIsMonotone(p.actualWeight, CubicSize(p) / 139.0, q.actualWeight, CubicSize(q) / 139.0, p.unit == Ounces);
  }

  /** 20 x 10 x 10 inches at 15 lbs: dimensional weight 2000/139, billed 15 lbs everywhere. */
  lemma ExampleTwentyByTenByTen()
    ensures Submit(FormSnapshot(Number(20.0), Number(10.0), Number(10.0), Number(15.0), true, false))
      == Ok(Breakdown(Pounds, 15.0, 2000.0, 2000.0 / 139.0, 2000.0 / 139.0, 15, 15, 15.0, 15.0))
  {
  }

  /** 64 oz in a 20 x 10 x 10 box: UPS bills ceil(max(4, 14.39)) = 15, USPS the entered 64. */
  lemma ExampleOunces()
    ensures Submit(FormSnapshot(Number(20.0), Number(10.0), Number(10.0), Number(64.0), false, true))
      == Ok(Breakdown(Ounces, 64.0, 2000.0, 2000.0 / 139.0, 2000.0 / 139.0, 15, 15, 64.0, 64.0))
  {
  }

  lemma ExampleFormatting()
    ensures FormatActualWeight(2.5, true) == "3 lbs"
    ensures FormatActualWeight(-2.5, false) == "-2 oz"
    ensures FormatActualWeight(14.49, true) == "14 lbs"
  {
  }
}
