/**
 * The newer, built calculator (dist/index.js). Dimensional weight is rounded
 * up, USPS/Firstmile apply it only past one cubic foot and one pound, and the
 * entered weight is turned into whole pounds before any carrier rule runs.
 */
module DistCalculator {
  import opened Common

  /** One cubic foot, in cubic inches. */
  const CubicFoot: real := 1728.0

  /** A USPS/Firstmile dimensional weight: whole pounds, or "N/A" in ounces mode. */
  datatype DimWeight = Lbs(pounds: int) | NotApplicable

  /** A USPS/Firstmile bill; `Math.max(weight, "N/A")` is NaN. */
  datatype BilledWeight = Weight(pounds: real) | NotANumber

  datatype GroundRow = GroundRow(dim: int, billed: int)

  datatype PostalRow = PostalRow(dim: DimWeight, billed: BilledWeight)

  /** What the submit handler has computed once the inputs are valid. */
  datatype Breakdown = Breakdown(
    unit: WeightUnit,
    displayedWeight: real,
    workingWeight: int,
    cubicSize: real,
    ups: GroundRow,
    fedex: GroundRow,
    usps: PostalRow,
    firstmile: PostalRow)

  /** The cubic size over the carrier's divisor, rounded up to a whole pound. */
  function DimensionalWeight(cubicSize: real, dimFactor: real): (d: int)
    requires dimFactor > 0.0
    ensures cubicSize / dimFactor <= d as real < cubicSize / dimFactor + 1.0
  {
    RoundUpToNearestPound(cubicSize / dimFactor)
  }

  /**
   * USPS/Firstmile: past one cubic foot and one pound (the ounce threshold is
   * sixteen ounces converted to pounds, also 1), the greater of the weight and
   * the dimensional weight; otherwise the weight itself.
   */
  function USPSFirstmileBilledWeight(actualWeight: real, dimWeight: DimWeight, cubicSize: real, isPounds: bool): (b: BilledWeight)
    ensures cubicSize <= 1728.0 || actualWeight <= 1.0 ==> b == Weight(actualWeight)
    ensures cubicSize > 1728.0 && actualWeight > 1.0 && dimWeight.Lbs? ==>
      && b.Weight?
      && b.pounds >= actualWeight
      && b.pounds >= dimWeight.pounds as real
      && (b.pounds == actualWeight || b.pounds == dimWeight.pounds as real)
    ensures cubicSize > 1728.0 && actualWeight > 1.0 && dimWeight.NotApplicable? ==> b == NotANumber
  {
    var threshold := if isPounds then 1.0 else OuncesToPounds(16.0);
    if cubicSize > CubicFoot && actualWeight > threshold then
      match dimWeight
      case Lbs(d) => Weight(Max(actualWeight, d as real))
      case NotApplicable => NotANumber
    else
      Weight(actualWeight)
  }

  /** The weight every carrier rule sees: the entry in pounds, rounded up to a whole pound. */
  function WorkingWeight(actualWeight: real, unit: WeightUnit): (w: int)
    ensures var pounds := if unit == Ounces then actualWeight / 16.0 else actualWeight;
      pounds <= w as real < pounds + 1.0
  {
    var pounds := if unit == Ounces then OuncesToPounds(actualWeight) else actualWeight;
    RoundUpToNearestPound(pounds)
  }

  /** The calculation after validation, as lines 74-115 of the handler run it. */
  function Compute(p: Package): (b: Breakdown)
    ensures b.unit == p.unit && b.displayedWeight == p.actualWeight
    ensures b.workingWeight == WorkingWeight(p.actualWeight, p.unit)
    ensures b.cubicSize == CubicSize(p)
    ensures b.ups == b.fedex && b.usps == b.firstmile
    ensures b.ups.dim as real >= b.cubicSize / 139.0 && b.ups.dim as real < b.cubicSize / 139.0 + 1.0
    ensures b.usps.dim.NotApplicable? <==> p.unit == Ounces
    ensures p.unit == Pounds ==> b.usps.dim.Lbs? && b.cubicSize / 166.0 <= b.usps.dim.pounds as real < b.cubicSize / 166.0 + 1.0
    ensures b.ups.billed >= b.ups.dim
    ensures p.unit == Pounds ==>
      && b.ups.billed == (if b.workingWeight >= b.ups.dim then b.workingWeight else b.ups.dim)
      && b.ups.billed as real >= p.actualWeight
    ensures p.unit == Ounces ==> b.ups.billed as real >= b.workingWeight as real / 16.0
  {
    var isPounds := p.unit == Pounds;
    var isOunces := p.unit == Ounces;
    var working := WorkingWeight(p.actualWeight, p.unit);
    var cubicSize := CubicSize(p);
    var dimWeightUPS := DimensionalWeight(cubicSize, 139.0);
    var dimWeightFedEx := DimensionalWeight(cubicSize, 139.0);
    var dimWeightUSPS := if isOunces then NotApplicable else Lbs(DimensionalWeight(cubicSize, 166.0));
    var dimWeightFirstmile := if isOunces then NotApplicable else Lbs(DimensionalWeight(cubicSize, 166.0));
    Breakdown(
      p.unit, p.actualWeight, working, cubicSize,
      GroundRow(dimWeightUPS, UPSFedExBilledWeight(working as real, dimWeightUPS as real, isOunces)),
      GroundRow(dimWeightFedEx, UPSFedExBilledWeight(working as real, dimWeightFedEx as real, isOunces)),
      PostalRow(dimWeightUSPS, USPSFirstmileBilledWeight(working as real, dimWeightUSPS, cubicSize, isPounds)),
      PostalRow(dimWeightFirstmile, USPSFirstmileBilledWeight(working as real, dimWeightFirstmile, cubicSize, isPounds)))
  }

  /** The submit handler: validate in order, then compute; a failure computes nothing. */
  function Submit(form: FormSnapshot): (r: Result<Breakdown>)
    ensures r.Err? <==> Validate(form).Err?
    ensures r.Err? ==> r.error == Validate(form).error
    ensures r.Ok? ==>
      && form.length.Number? && form.width.Number? && form.height.Number? && form.actualWeight.Number?
      && form.length.value >= form.width.value && form.length.value >= form.height.value
      && r.value == Compute(Package(form.length.value, form.width.value, form.height.value,
                                    form.actualWeight.value, if form.poundsChecked then Pounds else Ounces))
  {
    var checked := Validate(form);
    if checked.Err? then Err(checked.error) else Ok(Compute(checked.value))
  }

  /** Small or light packages: USPS/Firstmile bill the working weight, whatever the dimensional weight. */
  lemma PostalSmallOrLightBillsWeight(p: Package)
    requires CubicSize(p) <= CubicFoot || WorkingWeight(p.actualWeight, p.unit) <= 1
    ensures Compute(p).usps.billed == Weight(WorkingWeight(p.actualWeight, p.unit) as real)
    ensures Compute(p).firstmile.billed == Compute(p).usps.billed
  {
  }

  /**
   * Pounds mode, past one cubic foot and one pound: the greater of the working
   * weight and ceil(cubic/166), a whole number at least as large as both.
   */
  lemma PostalLargeBillsGreater(p: Package)
    requires p.unit == Pounds
    requires CubicSize(p) > CubicFoot && WorkingWeight(p.actualWeight, p.unit) > 1
    ensures var w := WorkingWeight(p.actualWeight, p.unit);
      var d := DimensionalWeight(CubicSize(p), 166.0);
      && Compute(p).usps.billed == Weight(if w >= d then w as real else d as real)
      && Compute(p).usps.billed.pounds >= w as real
      && Compute(p).usps.billed.pounds >= CubicSize(p) / 166.0
  {
  }

  /** Ounces mode, past one cubic foot and one pound, the USPS/Firstmile bill is NaN. */
  lemma PostalOuncesLargeIsNaN(p: Package)
    requires p.unit == Ounces
    requires CubicSize(p) > CubicFoot && WorkingWeight(p.actualWeight, p.unit) > 1
    ensures Compute(p).usps.billed == NotANumber && Compute(p).firstmile.billed == NotANumber
  {
  }

  /**
   * UPS/FedEx in the submit flow: the working weight is already in pounds, yet
   * ounces mode divides it by sixteen again.
   */
  lemma GroundOuncesConvertedTwice(p: Package)
    requires p.unit == Ounces
    ensures var w := RoundUpToNearestPound(p.actualWeight / 16.0);
      var d := DimensionalWeight(CubicSize(p), 139.0);
      Compute(p).ups.billed == RoundUpToNearestPound(Max(w as real / 16.0, d as real))
  {
  }

  /** 32 oz (2 lbs) in a 1-inch cube: UPS bills 1 lb, while the same entry in pounds bills 2 lbs. */
  lemma ExampleOuncesUnderBilled()
    ensures Compute(Package(1.0, 1.0, 1.0, 32.0, Ounces)).ups.billed == 1
    ensures Compute(Package(1.0, 1.0, 1.0, 2.0, Pounds)).ups.billed == 2
  {
  }

  /** A bigger, heavier package (non-negative sides, same unit) never costs less at UPS/FedEx. */
  lemma GroundBillIsMonotone(p: Package, q: Package)
    requires p.unit == q.unit
    requires 0.0 <= p.length <= q.length
    requires 0.0 <= p.width <= q.width
    requires 0.0 <= p.height <= q.height
    requires p.actualWeight <= q.actualWeight
    ensures Compute(p).ups.billed <= Compute(q).ups.billed
  {
    CubicSizeIsMonotone(p, q);
    var pounds := if p.unit == Ounces then p.actualWeight / 16.0 else p.actualWeight;
    var pounds' := if q.unit == Ounces then q.actualWeight / 16.0 else q.actualWeight;
    RoundUpIsMonotone(pounds, pounds');
    RoundUpIsMonotone(CubicSize(p) / 139.0, CubicSize(q) / 139.0);
    UPSFedExIsMonotone(
      WorkingWeight(p.actualWeight, p.unit) as real, DimensionalWeight(CubicSize(p), 139.0) as real,
      WorkingWeight(q.actualWeight, q.unit) as real, DimensionalWeight(CubicSize(q), 139.0) as real,
      p.unit == Ounces);
  }

  /** In pounds mode a bigger, heavier package never costs less at USPS/Firstmile either. */
  lemma PostalBillIsMonotone(p: Package, q: Package)
    requires p.unit == Pounds && q.unit == Pounds
    requires 0.0 <= p.length <= q.length
    requires 0.0 <= p.width <= q.width
    requires 0.0 <= p.height <= q.height
    requires p.actualWeight <= q.actualWeight
    ensures Compute(p).usps.billed.Weight? && Compute(q).usps.billed.Weight?
    ensures Compute(p).usps.billed.pounds <= Compute(q).usps.billed.pounds
  {
    CubicSizeIsMonotone(p, q);
    RoundUpIsMonotone(p.actualWeight, q.actualWeight);
    RoundUpIsMonotone(CubicSize(p) / 166.0, CubicSize(q) / 166.0);
  }

  /** 20 x 10 x 10 inches at 15 lbs. */
  lemma ExampleTwentyByTenByTen()
    ensures Submit(FormSnapshot(Number(20.0), Number(10.0), Number(10.0), Number(15.0), true, false))
      == Ok(Breakdown(Pounds, 15.0, 15, 2000.0,
                      GroundRow(15, 15), GroundRow(15, 15),
                      PostalRow(Lbs(13), Weight(15.0)), PostalRow(Lbs(13), Weight(15.0))))
  {
  }

  /** 8 x 6 x 4 inches at 2 lbs: below one cubic foot, so USPS bills the weight; UPS bills 2 as well. */
  lemma ExampleEightBySixByFour()
    ensures Submit(FormSnapshot(Number(8.0), Number(6.0), Number(4.0), Number(2.0), true, false))
      == Ok(Breakdown(Pounds, 2.0, 2, 192.0,
                      GroundRow(2, 2), GroundRow(2, 2),
                      PostalRow(Lbs(2), Weight(2.0)), PostalRow(Lbs(2), Weight(2.0))))
  {
  }
}
