/** Unit conversion of the profile and weight forms (app.js, `convertHeightToCm`
    and `convertWeightToKg`). Each entry records which unit radio button is
    checked and what `parseFloat` made of the fields of that unit; the DOM
    reads themselves are not modelled. */
module Units {
  import opened Wrappers
  import opened JsMath

  /** One inch is exactly 2.54 cm; one foot is 12 inches. */
  const CM_PER_INCH: real := 2.54
  const INCHES_PER_FOOT: real := 12.0

  /** The two weight factors, as written in the source. They are independent
      constants: 14 pounds at this pound factor is not exactly one stone. */
  const KG_PER_STONE: real := 6.35029318
  const KG_PER_POUND: real := 0.453592

  /** The height section of the profile form: a height in centimetres, or feet
      and inches. */
  datatype HeightEntry =
    | Centimetres(height: Option<real>)
    | FeetInches(feet: Option<real>, inches: Option<real>)

  /** The weight form: a weight in kilograms, or stones and pounds. */
  datatype WeightEntry =
    | Kilograms(weight: Option<real>)
    | StonesPounds(stones: Option<real>, pounds: Option<real>)

  /** `convertHeightToCm`. A centimetre reading is passed through, NaN
      included; feet and inches default to 0 when blank, so that branch always
      yields a number. */
  function ConvertHeightToCm(e: HeightEntry): (cm: Option<real>)
    ensures e.Centimetres? ==> cm == e.height
    ensures e.FeetInches? ==> cm.Some?
  {
    match e
    case Centimetres(height) => height
    case FeetInches(feet, inches) =>
      Some((OrZero(feet) * INCHES_PER_FOOT + OrZero(inches)) * CM_PER_INCH)
  }

  /** `convertWeightToKg`. A kilogram reading is passed through, NaN included;
      stones and pounds default to 0 when blank. */
  function ConvertWeightToKg(e: WeightEntry): (kg: Option<real>)
    ensures e.Kilograms? ==> kg == e.weight
    ensures e.StonesPounds? ==> kg.Some?
  {
    match e
    case Kilograms(weight) => weight
    case StonesPounds(stones, pounds) =>
      Some(OrZero(stones) * KG_PER_STONE + OrZero(pounds) * KG_PER_POUND)
  }

  /** Feet and inches: `(feet * 12 + inches) * 2.54`, a blank field counting
      as 0. */
  lemma FeetInchesFormula(feet: Option<real>, inches: Option<real>)
    ensures var f := if feet.Some? then feet.value else 0.0;
            var i := if inches.Some? then inches.value else 0.0;
            ConvertHeightToCm(FeetInches(feet, inches)) == Some((f * 12.0 + i) * 2.54)
  {
  }

  /** A feet-and-inches height depends only on the total number of inches:
      a foot is twelve inches, and the inches field alone gives 2.54 cm each. */
  lemma FeetAreTwelveInches(feet: real, inches: real)
    ensures ConvertHeightToCm(FeetInches(Some(feet), Some(inches)))
         == ConvertHeightToCm(FeetInches(None, Some(feet * 12.0 + inches)))
         == Some(2.54 * (feet * 12.0 + inches))
  {
  }

  /** An example: 5 ft 10 in is 177.8 cm. */
  lemma FiveFeetTen()
    ensures ConvertHeightToCm(FeetInches(Some(5.0), Some(10.0))) == Some(177.8)
  {
  }

  /** More feet or more inches never give a shorter height. */
  lemma FeetInchesMonotone(f1: real, i1: real, f2: real, i2: real)
    requires f1 <= f2 && i1 <= i2
    ensures ConvertHeightToCm(FeetInches(Some(f1), Some(i1))).value
         <= ConvertHeightToCm(FeetInches(Some(f2), Some(i2))).value
  {
  }

  /** Stones and pounds: `stones * 6.35029318 + pounds * 0.453592`, a blank
      field counting as 0. */
  lemma StonesPoundsFormula(stones: Option<real>, pounds: Option<real>)
    ensures var s := if stones.Some? then stones.value else 0.0;
            var p := if pounds.Some? then pounds.value else 0.0;
            ConvertWeightToKg(StonesPounds(stones, pounds)) == Some(s * 6.35029318 + p * 0.453592)
  {
  }

  /** The stone factor is not derived from the pound factor: one stone is a
      little more than fourteen pounds, by less than ten milligrams. */
  lemma StoneIsNotFourteenPounds()
    ensures var stone := ConvertWeightToKg(StonesPounds(Some(1.0), None)).value;
            var pounds := ConvertWeightToKg(StonesPounds(None, Some(14.0))).value;
            0.0 < stone - pounds < 0.00001
  {
  }

  /** More stones or more pounds never give a lighter weight. */
  lemma StonesPoundsMonotone(s1: real, p1: real, s2: real, p2: real)
    requires s1 <= s2 && p1 <= p2
    ensures ConvertWeightToKg(StonesPounds(Some(s1), Some(p1))).value
         <= ConvertWeightToKg(StonesPounds(Some(s2), Some(p2))).value
  {
  }
}
