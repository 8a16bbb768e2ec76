/** The estimation engine of `MacroMonitor` (app.js): Mifflin-St Jeor BMR,
    TDEE, the four weight-loss targets and the 35/35/30 macro split, each
    rounded with `Math.round`, and the chain that `calculateResults` runs. */
module Estimation {
  import opened Wrappers
  import opened JsMath

  /** The one sex value that selects the male formula; every other value,
      including the empty string, selects the other one. */
  const MALE: string := "male"

  /** The profile as `saveProfile` builds it. `age` and `activityLevel` are
      `parseFloat` readings and may be NaN (`None`); `height` has passed the
      height guard. */
  datatype Profile = Profile(sex: string, age: Option<real>, height: real, activityLevel: Option<real>)

  /** Daily targets for losing 0.5, 1, 1.5 and 2 lb a week. */
  datatype LossTargets = LossTargets(loss05: int, loss10: int, loss15: int, loss20: int)

  datatype Macro = Macro(kcal: int, grams: int)
  datatype Macros = Macros(protein: Macro, carbs: Macro, fat: Macro)

  /** What the results section shows; `None` is a NaN shown as "NaN kcal/day". */
  datatype Display = Display(bmr: Option<int>, tdee: Option<int>, targets: Option<LossTargets>, macros: Option<Macros>)

  /** `calculateBMR`: the Mifflin-St Jeor estimate `10 w + 6.25 h - 5 a` plus 5
      for "male" and minus 161 for any other sex value, rounded half up. */
  function CalculateBMR(sex: string, age: real, height: real, weight: real): (bmr: int)
    ensures var base := 10.0 * weight + 6.25 * height - 5.0 * age;
            var exact := if sex == MALE then base + 5.0 else base - 161.0;
            exact - 0.5 < bmr as real <= exact + 0.5
  {
    if sex == MALE then
      Round(10.0 * weight + 6.25 * height - 5.0 * age + 5.0)
    else
      Round(10.0 * weight + 6.25 * height - 5.0 * age - 161.0)
  }

  /** `calculateTDEE`: BMR scaled by the activity multiplier, rounded half up. */
  function CalculateTDEE(bmr: int, activityLevel: real): (tdee: int)
    ensures bmr as real * activityLevel - 0.5 < tdee as real <= bmr as real * activityLevel + 0.5
  {
    Round(bmr as real * activityLevel)
  }

  /** `calculateWeightLossCalories`: fixed deficits of 250, 500, 750 and 1000
      kcal a day, each rounded. The targets are the rounded TDEE minus the
      deficit, so they fall in steps of exactly 250, and nothing clamps them. */
  function CalculateWeightLossCalories(tdee: real): (t: LossTargets)
    ensures t.loss05 == Round(tdee) - 250
    ensures t.loss10 == t.loss05 - 250
    ensures t.loss15 == t.loss10 - 250
    ensures t.loss20 == t.loss15 - 250
  {
    RoundShift(tdee, -250);
    RoundShift(tdee, -500);
    RoundShift(tdee, -750);
    RoundShift(tdee, -1000);
    LossTargets(Round(tdee - 250.0), Round(tdee - 500.0), Round(tdee - 750.0), Round(tdee - 1000.0))
  }

  /** `calculateMacros`: 35% protein, 35% carbohydrate and 30% fat, each share
      rounded to whole kcal, then converted to grams at 4, 4 and 9 kcal/g and
      rounded again. */
  function CalculateMacros(dailyCalories: real): (m: Macros)
    ensures m.protein == m.carbs
    ensures dailyCalories * 0.35 - 0.5 < m.protein.kcal as real <= dailyCalories * 0.35 + 0.5
    ensures dailyCalories * 0.30 - 0.5 < m.fat.kcal as real <= dailyCalories * 0.30 + 0.5
    ensures m.protein.kcal as real / 4.0 - 0.5 < m.protein.grams as real <= m.protein.kcal as real / 4.0 + 0.5
    ensures m.fat.kcal as real / 9.0 - 0.5 < m.fat.grams as real <= m.fat.kcal as real / 9.0 + 0.5
  {
    var proteinKcal := Round(dailyCalories * 0.35);
    var carbsKcal := Round(dailyCalories * 0.35);
    var fatKcal := Round(dailyCalories * 0.30);
    var proteinGrams := Round(proteinKcal as real / 4.0);
    var carbsGrams := Round(carbsKcal as real / 4.0);
    var fatGrams := Round(fatKcal as real / 9.0);
    Macros(Macro(proteinKcal, proteinGrams), Macro(carbsKcal, carbsGrams), Macro(fatKcal, fatGrams))
  }

  /** The calculation half of `calculateResults` for an accepted weight:
      BMR, then TDEE, then the four targets, then the macros of the 1.5 lb/week
      target. A NaN age makes every figure NaN; a NaN activity level leaves the
      BMR and makes the rest NaN. */
  function Estimate(p: Profile, weight: real): (d: Display)
    ensures d.bmr.Some? <==> p.age.Some?
    ensures d.tdee.Some? <==> p.age.Some? && p.activityLevel.Some?
    ensures d.targets.Some? <==> d.tdee.Some?
    ensures d.macros.Some? <==> d.tdee.Some?
    ensures d.bmr.Some? ==> d.bmr.value == CalculateBMR(p.sex, p.age.value, p.height, weight)
    ensures d.tdee.Some? ==> d.tdee.value == CalculateTDEE(d.bmr.value, p.activityLevel.value)
    ensures d.tdee.Some? ==> d.targets.value == CalculateWeightLossCalories(d.tdee.value as real)
    ensures d.tdee.Some? ==> d.targets.value.loss15 == d.tdee.value - 750
    ensures d.tdee.Some? ==> d.macros.value == CalculateMacros(d.targets.value.loss15 as real)
  {
    match p.age
    case None => Display(None, None, None, None)
    case Some(age) =>
      var bmr := CalculateBMR(p.sex, age, p.height, weight);
      match p.activityLevel
      case None => Display(Some(bmr), None, None, None)
      case Some(activityLevel) =>
        var tdee := CalculateTDEE(bmr, activityLevel);
        var targets := CalculateWeightLossCalories(tdee as real);
        RoundOfInteger(tdee);
        Display(Some(bmr), Some(tdee), Some(targets), Some(CalculateMacros(targets.loss15 as real)))
  }

  /** For the same age, height and weight, the male BMR is exactly 166 kcal
      above the BMR of any other sex value: rounding commutes with the integer
      offset between the two formulas. */
  lemma BmrSexOffset(other: string, age: real, height: real, weight: real)
    requires other != MALE
    ensures CalculateBMR(MALE, age, height, weight) == CalculateBMR(other, age, height, weight) + 166
  {
    var base := 10.0 * weight + 6.25 * height - 5.0 * age;
    RoundShift(base - 161.0, 166);
    assert base + 5.0 == (base - 161.0) + 166 as real;
  }

  /** BMR never falls when weight or height grows or age falls. */
  lemma BmrMonotone(sex: string, age1: real, height1: real, weight1: real, age2: real, height2: real, weight2: real)
    requires weight1 <= weight2 && height1 <= height2 && age2 <= age1
    ensures CalculateBMR(sex, age1, height1, weight1) <= CalculateBMR(sex, age2, height2, weight2)
  {
    var base1 := 10.0 * weight1 + 6.25 * height1 - 5.0 * age1;
    var base2 := 10.0 * weight2 + 6.25 * height2 - 5.0 * age2;
    var offset := if sex == MALE then 5.0 else -161.0;
    RoundMonotone(base1 + offset, base2 + offset);
  }

  /** For a non-negative BMR, TDEE never falls when the activity multiplier
      grows. */
  lemma TdeeMonotone(bmr: int, activity1: real, activity2: real)
    requires 0 <= bmr
    requires activity1 <= activity2
    ensures CalculateTDEE(bmr, activity1) <= CalculateTDEE(bmr, activity2)
  {
    RoundMonotone(bmr as real * activity1, bmr as real * activity2);
  }

  /** For a non-negative activity multiplier, TDEE never falls when the BMR
      grows. */
  lemma TdeeMonotoneInBmr(bmr1: int, bmr2: int, activityLevel: real)
    requires bmr1 <= bmr2
    requires 0.0 <= activityLevel
    ensures CalculateTDEE(bmr1, activityLevel) <= CalculateTDEE(bmr2, activityLevel)
  {
    RoundMonotone(bmr1 as real * activityLevel, bmr2 as real * activityLevel);
  }

  /** More daily calories never give fewer kcal or grams of any macro. */
  lemma MacrosMonotone(dailyCalories1: real, dailyCalories2: real)
    requires dailyCalories1 <= dailyCalories2
    ensures var m1 := CalculateMacros(dailyCalories1);
            var m2 := CalculateMacros(dailyCalories2);
            m1.protein.kcal <= m2.protein.kcal && m1.protein.grams <= m2.protein.grams &&
            m1.carbs.kcal <= m2.carbs.kcal && m1.carbs.grams <= m2.carbs.grams &&
            m1.fat.kcal <= m2.fat.kcal && m1.fat.grams <= m2.fat.grams
  {
    var m1 := CalculateMacros(dailyCalories1);
    var m2 := CalculateMacros(dailyCalories2);
    RoundMonotone(dailyCalories1 * 0.35, dailyCalories2 * 0.35);
    RoundMonotone(dailyCalories1 * 0.30, dailyCalories2 * 0.30);
    RoundMonotone(m1.protein.kcal as real / 4.0, m2.protein.kcal as real / 4.0);
    RoundMonotone(m1.fat.kcal as real / 9.0, m2.fat.kcal as real / 9.0);
  }

  /** For an integer TDEE, which `calculateTDEE` always returns, the targets
      are exactly TDEE minus 250, 500, 750 and 1000; they go below zero as soon
      as the deficit exceeds the TDEE. */
  lemma IntegerTdeeTargets(tdee: int)
    ensures var t := CalculateWeightLossCalories(tdee as real);
            t == LossTargets(tdee - 250, tdee - 500, tdee - 750, tdee - 1000)
    ensures CalculateWeightLossCalories(tdee as real).loss20 < 0 <==> tdee < 1000
  {
    RoundOfInteger(tdee);
  }

  /** The three kcal shares are rounded independently, so together they miss
      the daily target by at most 1.5 kcal either way. */
  lemma MacroKcalSum(dailyCalories: real)
    ensures var m := CalculateMacros(dailyCalories);
            var total := (m.protein.kcal + m.carbs.kcal + m.fat.kcal) as real;
            dailyCalories - 1.5 < total <= dailyCalories + 1.5
  {
  }

  /** Rounding a whole number of kcal to grams at 4 or 9 kcal/g and
      multiplying back gives `kcal + e`, with `-density/2 < e <= density/2`. */
  lemma GramsBackToKcal(kcal: int, density: int)
    requires density == 4 || density == 9
    ensures var back := density * Round(kcal as real / density as real) - kcal;
            -(density as real) / 2.0 < back as real <= density as real / 2.0
  {
    var g := Round(kcal as real / density as real);
    if density == 4 {
      assert kcal as real / 4.0 - 0.5 < g as real <= kcal as real / 4.0 + 0.5;
      assert kcal as real - 2.0 < 4.0 * g as real <= kcal as real + 2.0;
    } else {
      assert kcal as real / 9.0 - 0.5 < g as real <= kcal as real / 9.0 + 0.5;
      assert kcal as real - 4.5 < 9.0 * g as real <= kcal as real + 4.5;
    }
  }

  /** Grams converted back to kcal (4, 4 and 9 kcal/g) stay in (D - 7.5, D + 9.5]
      for a daily target D: the kcal shares contribute (-1.5, 1.5]; since each
      share is a whole number, 4 g - kcal lies in [-1, 2] for protein and
      carbohydrate and 9 g - kcal in [-4, 4] for fat. */
  lemma RemultipliedGramsDrift(dailyCalories: real)
    ensures var m := CalculateMacros(dailyCalories);
            var total := (4 * m.protein.grams + 4 * m.carbs.grams + 9 * m.fat.grams) as real;
            dailyCalories - 7.5 < total <= dailyCalories + 9.5
  {
    var m := CalculateMacros(dailyCalories);
    MacroKcalSum(dailyCalories);
    GramsBackToKcal(m.protein.kcal, 4);
    GramsBackToKcal(m.fat.kcal, 9);
    var p := 4 * m.protein.grams - m.protein.kcal;
    var f := 9 * m.fat.grams - m.fat.kcal;
    assert -1 <= p <= 2 && -4 <= f <= 4;
  }

  /** The three independently rounded kcal shares do not always add up to the
      daily target: at 1801 kcal they are 630, 630 and 540, which is 1800. */
  lemma MacroKcalDriftOccurs()
    ensures exists dailyCalories: int {:trigger CalculateMacros(dailyCalories as real)} ::
              var m := CalculateMacros(dailyCalories as real);
              1200 <= dailyCalories <= 3000 && m.protein.kcal + m.carbs.kcal + m.fat.kcal != dailyCalories
  {
    var m := CalculateMacros(1801.0);
    assert m == Macros(Macro(630, 158), Macro(630, 158), Macro(540, 60));
    // names the integer witness so that the existential can be instantiated
    assert (1801 as real) == 1801.0;
  }

  /** The drift of the re-multiplied grams can exceed 3 kcal: at 1800 kcal
      the split is 630/630/540 kcal, or 158/158/60 g, which is 1804 kcal. */
  lemma RemultipliedGramsDriftExceedsThree()
    ensures exists dailyCalories: int {:trigger CalculateMacros(dailyCalories as real)} ::
              var m := CalculateMacros(dailyCalories as real);
              1200 <= dailyCalories <= 3000 && 4 * m.protein.grams + 4 * m.carbs.grams + 9 * m.fat.grams > dailyCalories + 3
  {
    var m := CalculateMacros(1800.0);
    assert m == Macros(Macro(630, 158), Macro(630, 158), Macro(540, 60));
    // names the integer witness so that the existential can be instantiated
    assert (1800 as real) == 1800.0;
  }

  /** Nothing clamps the targets, even for a plausible profile: a sedentary
      (1.2) 80-year-old woman of 150 cm and 45 kg has BMR 827 and TDEE 992, so
      her 2 lb/week target is -8 kcal/day. */
  lemma TargetsCanBeNegative()
    ensures exists p: Profile, weight: real {:trigger Estimate(p, weight)} ::
              && p.age.Some? && p.age.value > 0.0 && p.height > 0.0
              && p.activityLevel.Some? && p.activityLevel.value >= 1.2 && weight > 0.0
              && Estimate(p, weight).targets.Some? && Estimate(p, weight).targets.value.loss20 < 0
  {
    var p := Profile("female", Some(80.0), 150.0, Some(1.2));
    assert CalculateBMR("female", 80.0, 150.0, 45.0) == 827;
    assert CalculateTDEE(827, 1.2) == 992;
    assert Estimate(p, 45.0).targets.value.loss20 == -8;
  }

  /** A heavier weight, for the same profile, never lowers any figure that is
      shown. The BMR grows with the weight even when the activity multiplier is
      NaN; with a non-negative multiplier so do TDEE, the four targets and every
      macro. */
  lemma EstimateMonotoneInWeight(p: Profile, weight1: real, weight2: real)
    requires weight1 <= weight2
    requires p.age.Some?
    requires p.activityLevel.Some? ==> 0.0 <= p.activityLevel.value
    ensures Estimate(p, weight1).bmr.value <= Estimate(p, weight2).bmr.value
    ensures p.activityLevel.Some? ==>
            var d1 := Estimate(p, weight1);
            var d2 := Estimate(p, weight2);
            var m1 := d1.macros.value;
            var m2 := d2.macros.value;
            && d1.tdee.value <= d2.tdee.value
            && d1.targets.value.loss05 <= d2.targets.value.loss05
            && d1.targets.value.loss10 <= d2.targets.value.loss10
            && d1.targets.value.loss15 <= d2.targets.value.loss15
            && d1.targets.value.loss20 <= d2.targets.value.loss20
            && m1.protein.kcal <= m2.protein.kcal && m1.protein.grams <= m2.protein.grams
            && m1.carbs.kcal <= m2.carbs.kcal && m1.carbs.grams <= m2.carbs.grams
            && m1.fat.kcal <= m2.fat.kcal && m1.fat.grams <= m2.fat.grams
  {
    var age := p.age.value;
    BmrMonotone(p.sex, age, p.height, weight1, age, p.height, weight2);
    if p.activityLevel.Some? {
      var activityLevel := p.activityLevel.value;
      var bmr1 := CalculateBMR(p.sex, age, p.height, weight1);
      var bmr2 := CalculateBMR(p.sex, age, p.height, weight2);
      TdeeMonotoneInBmr(bmr1, bmr2, activityLevel);
      var tdee1 := CalculateTDEE(bmr1, activityLevel);
      var tdee2 := CalculateTDEE(bmr2, activityLevel);
      IntegerTdeeTargets(tdee1);
      IntegerTdeeTargets(tdee2);
      MacrosMonotone((tdee1 - 750) as real, (tdee2 - 750) as real);
    }
  }

  /** An example run of the whole chain: a 30-year-old male, 180 cm, activity 1.55, weighing
      80 kg, gets BMR 1780, TDEE 2759, targets 2509/2259/2009/1759 and, for
      2009 kcal, 703 kcal (176 g) each of protein and carbohydrate and 603 kcal
      (67 g) of fat. */
  lemma WorkedExample()
    ensures Estimate(Profile(MALE, Some(30.0), 180.0, Some(1.55)), 80.0)
         == Display(Some(1780), Some(2759), Some(LossTargets(2509, 2259, 2009, 1759)),
                    Some(Macros(Macro(703, 176), Macro(703, 176), Macro(603, 67))))
  {
  }
}
