# Billed-weight calculator, modelled in Dafny

The repository is a Webflow form handler that tells a shipper what UPS, FedEx,
USPS and Firstmile will bill for a parcel. The user enters length, width and
height in inches, an actual weight, and ticks "pounds" or "ounces". On submit
the handler checks the inputs, computes the cubic size (length × width ×
height), a dimensional weight per carrier (cubic size over 139 for UPS/FedEx,
over 166 for USPS/Firstmile) and a billed weight per carrier.

The repository holds two versions of these rules, and each is its own module:

- `SrcCalculator` models `src/index.ts`, the older version. Dimensional weight
  is left unrounded. USPS/Firstmile always bill the entered weight. Weights are
  displayed rounded to the nearest whole unit.
- `DistCalculator` models `dist/index.js`, the newer build. Dimensional weight
  is rounded up. USPS/Firstmile apply it only above 1728 cubic inches and above
  1 lb. The entered weight is converted to pounds and rounded up before any
  carrier rule runs.
- `Common` holds what both files write identically: `parseInputValue`,
  `getWeightUnit`, `roundUpToNearestPound`, the unit conversion, the
  submit-path checks and `calculateUPSFedExBilledWeight`. In `dist/index.js`
  these are lines 16-19, 29-37, 26-28, 23-25, 57-73 with 80-86, and 47-52.
- `Decimal` models how a template literal prints an integer. A reader
  (`ParseInt`) is proved to read every printed integer back.

Everything is a pure function. Both files are expression-bodied helpers plus a
straight-line chain of bindings with early returns. The model keeps that shape:
`Validate`, then `Compute`, joined by `Submit`. A submit returns
`Err(MissingUnit)`, `Err(InvalidNumber)`, `Err(InvalidGeometry)` or `Ok` of the
per-carrier breakdown.

Inputs and abstractions:

- Each form field comes in as `ParsedFloat`, meaning "what `parseFloat` made of
  the text": a number or NaN. The two checkboxes come in as booleans.
- Numbers are exact `real`s. `Math.ceil` and `Math.round` are defined with
  `Floor`.
- The string `"N/A"` that `dist/index.js` uses as a dimensional weight is
  `DimWeight.NotApplicable`. The NaN that `Math.max` makes from it is
  `BilledWeight.NotANumber`.

Behaviour of the code worth knowing:

- Validation does not say which field failed to parse. There is one
  `InvalidNumber`, because the handler shows one message for all four fields.
- Zero and negative dimensions and weights are accepted. Only a NaN parse and a
  length shorter than the width or the height are rejected.
- In `src/index.ts` the dimensional weight is not rounded up.
- In `dist/index.js` the USPS/Firstmile weight threshold is compared against the
  working weight, which is already in whole pounds. In ounces mode the
  threshold is `convertOuncesToPounds(16)`, which is 1.
- In `dist/index.js`, ounces mode divides the working weight by 16 twice on the
  UPS/FedEx path: once at line 77 and again at line 49. A 32 oz parcel in a
  1-inch cube is billed 1 lb at UPS. The same parcel entered as 2 lbs is billed
  2 lbs (`DistCalculator.ExampleOuncesUnderBilled`). So "billing ounces equals
  billing the weight over 16 in pounds" holds for the helper alone
  (`Common.UPSFedExOuncesAreSixteenthPounds`), not for the submit flow.
- In `src/index.ts` the handler calls `formatDimWeight` at line 139, but that
  function is never defined. Its table rendering therefore stops there. The
  model ends at the computed breakdown.

## Model

| member | source | states |
|---|---|---|
| Common.ParseInputValue | src/index.ts:14-17 | no value exactly when the parse is NaN; otherwise the parsed number itself |
| Common.ParsedZeroIsAValue | src/index.ts:14-17 | a parsed 0 is a value, distinct from the NaN case |
| Common.GetWeightUnit | src/index.ts:38-46 | pounds iff the pounds box is checked (even with ounces too); ounces iff only ounces; none iff neither |
| Common.OuncesToPounds | dist/index.js:23-25 | the result times 16 is the ounce amount; 16 oz is 1 lb |
| Common.RoundUpToNearestPound | src/index.ts:33-35 | an integer n with w <= n < w + 1 (Math.ceil) |
| Common.RoundToNearestPound | src/index.ts:28-30 | an integer n with w - 1/2 < n <= w + 1/2 (Math.round, halves up) |
| Common.Max | src/index.ts:64 | at least both arguments and equal to one of them (Math.max on numbers) |
| Common.RoundingIsUnique | src/index.ts:28-35 | the two rounding results are the only integers within their bounds |
| Common.RoundHalfUp | src/index.ts:20-30 | k + 1/2 rounds to k + 1, k - 1/2 rounds to k |
| Common.RoundUpIsMonotone | dist/index.js:26-28 | rounding up preserves order |
| Common.Validate | src/index.ts:76-108 | missing unit iff neither box; invalid number iff a unit and some NaN field; invalid geometry iff all parsed and length < width or length < height; otherwise the parsed package with length >= width, height and the unit pounds-first |
| Common.CubicSize | src/index.ts:111 | length times width times height: zero when a side is zero, non-negative when all sides are |
| Common.CubicSizeIsMonotone | src/index.ts:111 | non-negative sides no larger give a cubic size no larger |
| Common.UPSFedExBilledWeight | src/index.ts:59-65 | with a = weight/16 in ounces mode and the weight otherwise: an integer >= a and >= dim, less than max(a, dim) + 1 |
| Common.UPSFedExOuncesAreSixteenthPounds | dist/index.js:47-52 | billing w ounces equals billing w/16 in pounds mode |
| Common.UPSFedExIsMonotone | dist/index.js:47-52 | more weight or more dimensional weight never lowers the bill |
| Decimal.NatToStringDenotes | src/index.ts:22-24 | a natural number prints as a non-empty digit string that denotes it, without a leading zero |
| Decimal.IntToString | src/index.ts:22-24 | an integer prints as '-' exactly when negative, then digits with no leading zero (0 is "0", never "-0"), and reads back as itself |
| Decimal.IntToStringIsInjective | src/index.ts:22-24 | different integers print differently |
| SrcCalculator.FormatActualWeight | src/index.ts:20-25 | the text ends in " lbs" in pounds mode and " oz" otherwise; what precedes it is the canonical printing of the weight rounded to the nearest integer, and reads back as that integer |
| SrcCalculator.USPSFirstmileBilledWeight | src/index.ts:49-56 | the billed weight is the entered weight, in either unit mode |
| SrcCalculator.Compute | src/index.ts:110-129 | cubic size l*w*h; UPS and FedEx dim both cubic/139, unrounded; USPS and Firstmile bill the entered weight; UPS = FedEx billed, an integer >= the pounds weight and >= dim, below their max + 1 |
| SrcCalculator.Submit | src/index.ts:68-129 | fails exactly when validation fails, with its error and no breakdown; on success all four fields parsed, the length is longest, and the breakdown is the calculation on the entered numbers with the unit pounds-first |
| SrcCalculator.ShortLengthIsRejected | src/index.ts:102-108 | a length shorter than width or height, with a unit and parsed fields, gives the geometry error |
| SrcCalculator.PostalBillsEnteredWeight | src/index.ts:118-119 | USPS and Firstmile bill exactly the entered number, whatever the unit and box |
| SrcCalculator.GroundBillIsMonotone | src/index.ts:111-129 | a package no larger in any side and no heavier is never billed more at UPS/FedEx |
| SrcCalculator.ExampleTwentyByTenByTen | src/index.ts:110-129 | 20x10x10 at 15 lbs: dim 2000/139, UPS/FedEx 15, USPS/Firstmile 15 |
| SrcCalculator.ExampleOunces | src/index.ts:59-65 | 20x10x10 at 64 oz: UPS/FedEx 15, USPS/Firstmile 64 |
| SrcCalculator.ExampleFormatting | src/index.ts:20-25 | 2.5 lbs shows "3 lbs", -2.5 oz shows "-2 oz", 14.49 lbs shows "14 lbs" |
| DistCalculator.DimensionalWeight | dist/index.js:38-40 | an integer d with c/f <= d < c/f + 1 |
| DistCalculator.USPSFirstmileBilledWeight | dist/index.js:41-46 | cubic <= 1728 or weight <= 1: the weight; above both with a number dim: the greater of the two; above both with "N/A": NaN |
| DistCalculator.WorkingWeight | dist/index.js:74-79 | the pounds value (w/16 for ounces) rounded up: an integer within one pound above it |
| DistCalculator.Compute | dist/index.js:74-115 | displayed weight is the raw entry; working weight as above; cubic size l*w*h; UPS = FedEx dim ceil(cubic/139); USPS/Firstmile dim "N/A" iff ounces, ceil(cubic/166) in pounds; UPS billed >= UPS dim; in pounds mode UPS billed is the greater of working weight and dim, so at least the entered weight; in ounces mode at least working weight / 16 |
| DistCalculator.Submit | dist/index.js:53-115 | fails exactly when validation fails (unit, then numbers, then geometry), with no breakdown; on success all four fields parsed, the length is longest, and the breakdown is the calculation on the entered numbers with the unit pounds-first |
| DistCalculator.PostalSmallOrLightBillsWeight | dist/index.js:41-46 | up to 1728 cubic inches or up to 1 lb, USPS and Firstmile bill the working weight |
| DistCalculator.PostalLargeBillsGreater | dist/index.js:42-43 | pounds mode above both thresholds: the greater of working weight and ceil(cubic/166), at least both |
| DistCalculator.PostalOuncesLargeIsNaN | dist/index.js:90-105 | ounces mode above both thresholds: USPS and Firstmile bills are NaN |
| DistCalculator.GroundOuncesConvertedTwice | dist/index.js:106-115 | ounces mode UPS bill is ceil(max(ceil(w/16)/16, ceil(cubic/139))) |
| DistCalculator.ExampleOuncesUnderBilled | dist/index.js:47-52 | 32 oz in a 1-inch cube bills 1 lb at UPS; 2 lbs entered as pounds bills 2 |
| DistCalculator.GroundBillIsMonotone | dist/index.js:87-115 | a package no larger in any side and no heavier is never billed more at UPS/FedEx |
| DistCalculator.PostalBillIsMonotone | dist/index.js:94-105 | in pounds mode the USPS bill is a number and never drops for a larger, heavier package |
| DistCalculator.ExampleTwentyByTenByTen | dist/index.js:87-115 | 20x10x10 at 15 lbs: UPS dim 15 billed 15, USPS dim 13 billed 15 |
| DistCalculator.ExampleEightBySixByFour | dist/index.js:87-115 | 8x6x4 at 2 lbs: cubic 192, USPS billed 2, UPS dim 2 billed 2 |

## Left out

- DOM wiring is not modelled, because it is UI plumbing. This covers form and
  element lookup, `FormData`, event listeners, `preventDefault` and
  `stopPropagation`, and the writes to `textContent`.
- The live-preview handlers `updateDisplay` are not modelled. They only call
  the same helpers again.
- Logging is not modelled: all `console.log` and `console.error` calls.
- The live-reload `EventSource` at the top of `dist/index.js` is not modelled.
  It is development tooling and uses the network.
- `parseFloat`'s grammar is not modelled: prefix parsing, exponents,
  `Infinity` and whitespace. Each field is given as its parse outcome.
- IEEE-754 doubles are not modelled: rounding error, infinities, and printing
  of very large or fractional numbers. Numbers are exact reals.
- `IntToString` matches JavaScript's printing only for integers below 10^21.
  Above that JavaScript switches to exponent notation.
- `displayExactActualWeight` in `dist/index.js` is not modelled. It prints an
  arbitrary JavaScript number, so the model only carries the raw weight it
  would print.
- Rendering of the result table is not modelled. In `src/index.ts` this is
  `formatDimWeight`, which is never defined. In `dist/index.js` it is the
  `"... lbs"` strings.
- DistCalculator.DimensionalWeight requires a positive divisor. The code only
  ever passes 139 or 166, and division by zero in doubles has no real
  counterpart.
- DistCalculator.PostalBillIsMonotone and DistCalculator.PostalLargeBillsGreater
  cover pounds mode only. In ounces mode above the thresholds the bill is NaN
  (`PostalOuncesLargeIsNaN`) and has no order.
