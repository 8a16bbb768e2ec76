# Macro Monitor calculation engine in Dafny

This project models the calculation core of Macro Monitor, a small desktop
app (app.js) that estimates a person's daily energy needs and macronutrient
targets. From a profile (sex, age, height, activity multiplier) and a body
weight it computes:

- the basal metabolic rate (BMR), using the Mifflin-St Jeor equation;
- the total daily energy expenditure (TDEE), which is BMR times the activity
  multiplier;
- four weight-loss calorie targets, for 0.5, 1, 1.5 and 2 lb a week;
- a 35/35/30 protein/carbohydrate/fat split of the 1.5 lb/week target.

Every step is rounded with JavaScript's `Math.round`.

Modules:

- `Wrappers` (wrappers.dfy): `Option`. What `None` means depends on the use:
  - for a form reading (the entries of `Units`, a profile's age and activity
    level), the `NaN` that `parseFloat` returns for a blank field;
  - for `MacroMonitor.profile`, `null`;
  - for the ghost storage fields and the `saved`/`savedWeight` parameters of
    `LoadProfile`, nothing stored under that key;
  - for the result of `LoadProfile`, that `calculateResults` did not run.
- `JsMath` (js_math.dfy): `Math.round`, modelled as `(x + 0.5).Floor`, which
  rounds halves toward +infinity. It also holds the falsiness of a number and
  the `x || 0` default.
- `Units` (units.dfy): `convertHeightToCm` and `convertWeightToKg`, with the
  constants exactly as the source writes them. 2.54 cm per inch and 12 inches
  per foot; 6.35029318 kg per stone and 0.453592 kg per pound. The stone is
  not derived from the pound.
- `Estimation` (estimation.dfy): the four calculators as functions, and
  `Estimate`, the chain that `calculateResults` runs for an accepted weight.
- `Monitor` (macro_monitor.dfy): the class `MacroMonitor`. It has the
  mutable field `profile`, two ghost fields that record what is written to
  browser storage, and the guard-then-update methods `SaveProfile`,
  `CalculateResults` and `LoadProfile`.

Numbers are Dafny `real`s, which are exact. A form field that `parseFloat`
turns into NaN is an `Option<real>`:

- In the height and weight guards (`!x || x <= 0`), NaN and zero are both
  rejected. `JsMath.Positive` states that the guard accepts exactly the
  positive numbers.
- A blank feet, inches, stones or pounds field counts as 0 (`|| 0`).
- A NaN age or activity level flows through to NaN figures. The `Display`
  datatype has four `Option`s for its eleven figures: BMR, TDEE, the four
  targets together and the six macro figures together. A NaN reaches each
  group as a whole.
- A profile read back from storage has passed through `JSON.stringify` and
  `JSON.parse`. That turns NaN into `null`, which counts as 0 in arithmetic.
  `Monitor.Revived` models this, so a reloaded profile always yields numbers.

Facts about app.js that a reader might not expect:

- Any sex value other than `"male"` takes the `- 161` branch. There is no
  error for an unrecognised value.
- Rounding is half up (`Math.round`), not half away from zero.
- A zero or negative activity multiplier is not rejected. It simply scales
  the BMR.
- app.js has one profile and one macro split. It has no profile store with
  ids, no deletion, no second ("lean-mass") or configurable macro split, and
  no Katch-McArdle formula.
- Grams re-multiplied at 4/4/9 kcal/g can miss the daily target by more than
  3 kcal: at 1800 kcal they come to 1804 (`RemultipliedGramsDriftExceedsThree`).
  They always come to more than D - 7.5 and at most D + 9.5 kcal for a target of D
  kcal (`RemultipliedGramsDrift`).

## Model

| member | source | states |
|---|---|---|
| `JsMath.Round` | app.js:154 | `Math.round(x)`: the unique integer r with x - 0.5 < r <= x + 0.5 (nearest integer, halves up) |
| `JsMath.RoundShift` | app.js:148-154 | rounding commutes with adding an integer |
| `JsMath.RoundOfInteger` | app.js:165-168 | rounding an integer gives it back |
| `JsMath.RoundMonotone` | app.js:154 | rounding is monotone |
| `JsMath.OrZero` | app.js:73-74 | `x \|\| 0`: a NaN reading becomes 0, a number is kept |
| `JsMath.Positive` | app.js:93 | the guard `!x \|\| x <= 0` rejects exactly NaN and the non-positive numbers |
| `Units.ConvertHeightToCm` | app.js:68-77 | a cm reading is returned unchanged (NaN included); the feet/inches branch never yields NaN |
| `Units.FeetInchesFormula` | app.js:73-75 | feet/inches gives `(feet*12 + inches) * 2.54`, a blank field counting as 0 |
| `Units.FeetAreTwelveInches` | app.js:75 | feet and inches depend only on total inches, 2.54 cm per inch |
| `Units.FiveFeetTen` | app.js:75 | 5 ft 10 in converts to 177.8 cm |
| `Units.FeetInchesMonotone` | app.js:75 | more feet or inches never give a shorter height |
| `Units.ConvertWeightToKg` | app.js:79-88 | a kg reading is returned unchanged (NaN included); the stones/pounds branch never yields NaN |
| `Units.StonesPoundsFormula` | app.js:84-86 | stones/pounds gives `stones*6.35029318 + pounds*0.453592`, a blank field counting as 0 |
| `Units.StoneIsNotFourteenPounds` | app.js:86 | one stone exceeds 14 pounds, by less than 0.00001 kg: the constants are independent |
| `Units.StonesPoundsMonotone` | app.js:86 | more stones or pounds never give a lighter weight |
| `Estimation.CalculateBMR` | app.js:144-155 | BMR is the nearest integer (halves up) to `10w + 6.25h - 5a + 5` for `"male"` and to `10w + 6.25h - 5a - 161` for every other sex value |
| `Estimation.BmrSexOffset` | app.js:148-154 | same weight, height and age: male BMR is exactly 166 above any other sex value's |
| `Estimation.BmrMonotone` | app.js:149-154 | BMR is non-decreasing in weight and height and non-increasing in age |
| `Estimation.CalculateTDEE` | app.js:157-159 | TDEE is the nearest integer to BMR times the activity multiplier |
| `Estimation.TdeeMonotone` | app.js:157-159 | for BMR >= 0, TDEE is non-decreasing in the activity multiplier |
| `Estimation.TdeeMonotoneInBmr` | app.js:157-159 | for a non-negative multiplier, TDEE is non-decreasing in BMR |
| `Estimation.CalculateWeightLossCalories` | app.js:161-170 | targets are round(TDEE) minus 250, 500, 750 and 1000, strictly decreasing in steps of 250 |
| `Estimation.IntegerTdeeTargets` | app.js:161-169 | for an integer TDEE the targets are exactly TDEE-250/-500/-750/-1000, unclamped: loss20 < 0 iff TDEE < 1000 |
| `Estimation.CalculateMacros` | app.js:172-189 | protein equals carbs; each kcal share is within 0.5 of 35%/30% of the target; grams are within 0.5 of kcal/4 and kcal/9 |
| `Estimation.MacroKcalSum` | app.js:176-178 | the three kcal shares sum to within 1.5 of the daily target |
| `Estimation.RemultipliedGramsDrift` | app.js:176-182 | grams times 4, 4 and 9 sum to a value in (D - 7.5, D + 9.5] for a daily target D |
| `Estimation.GramsBackToKcal` | app.js:180-182 | whole kcal rounded to grams at 4 or 9 kcal/g and multiplied back differ from the kcal by more than -density/2 and at most density/2 |
| `Estimation.MacroKcalDriftOccurs` | app.js:176-178 | some daily target between 1200 and 3000 kcal (1801) has kcal shares that do not add up to it |
| `Estimation.RemultipliedGramsDriftExceedsThree` | app.js:176-182 | some daily target between 1200 and 3000 kcal (1800: 158/158/60 g) has grams that re-multiply to more than 3 kcal above it |
| `Estimation.TargetsCanBeNegative` | app.js:161-169 | targets are not clamped: a plausible profile (80 y, 150 cm, 45 kg, activity 1.2) has a negative 2 lb/week target |
| `Estimation.MacrosMonotone` | app.js:176-182 | more daily calories never give fewer kcal or grams of any macro |
| `Estimation.Estimate` | app.js:202-212 | BMR is `CalculateBMR` of the profile and weight, TDEE is `CalculateTDEE` of that BMR and the multiplier, the targets are `CalculateWeightLossCalories` of that TDEE (so loss15 = TDEE - 750), and the macros are `CalculateMacros` of loss15; a NaN age makes every figure NaN and a NaN multiplier keeps only the BMR |
| `Estimation.EstimateMonotoneInWeight` | app.js:202-212 | a heavier weight never lowers the BMR, even with a NaN multiplier; with a non-negative multiplier it never lowers TDEE, any target or any macro either |
| `Estimation.WorkedExample` | app.js:191-212 | male, 30 y, 180 cm, 1.55, 80 kg: BMR 1780, TDEE 2759, targets 2509/2259/2009/1759, macros 703 kcal/176 g twice and 603 kcal/67 g |
| `Monitor.Revived` | app.js:116 | the JSON round trip turns a NaN age or activity level into 0 and keeps every other field |
| `Monitor.RevivedKeepsNumbers` | app.js:105-116 | a profile with numbers in every field survives the round trip unchanged |
| `Monitor.RevivedEstimateDefined` | app.js:113-126 | a reloaded profile always yields every figure |
| `Monitor.MacroMonitor.constructor` | app.js:6-8 | a new monitor starts with no profile and nothing stored |
| `Monitor.MacroMonitor.SaveProfile` | app.js:90-111 | saves iff the converted height is a positive number; a rejection leaves `profile` unchanged; otherwise the form's profile is stored and becomes current |
| `Monitor.MacroMonitor.CalculateResults` | app.js:191-216 | a NaN/zero/negative weight is rejected before anything is stored; an accepted weight is stored, then a missing profile fails and otherwise `Estimate` is shown; `profile` never changes |
| `Monitor.MacroMonitor.LoadProfile` | app.js:113-128 | with a stored profile it becomes current (revived), and a stored weight reruns `CalculateResults`; without one nothing changes |

## Left out

- The DOM work is not modelled, because it is presentation with no logic. This covers `setupUnitToggles`, `setupEventListeners`, `populateProfileForm`, `editProfile`, `displayResults`, `scrollIntoView` and `alert`. A rejected input is an outcome value (`SaveProfile` returns false, `CalculateResults` returns `InvalidWeight`).
- Browser storage is host persistence. What the monitor writes is recorded in the ghost fields `storedProfile` and `storedWeight`. What `loadProfile` reads arrives as the parameters of `LoadProfile`.
- `init` is not one member. The constructor models `this.profile = null`. A caller then runs `LoadProfile` to model the `loadProfile` call; the event wiring is DOM work.
- `LoadProfile` takes a stored weight as a number. A stored string that does not parse as a number is not representable; the app itself only ever stores accepted positive weights.
- `LoadProfile` puts the stored weight back as a kilogram entry. It assumes the kilogram radio button is the one checked. The page markup that decides this is not part of this model.
- main.js is not modelled. It is Electron window lifecycle plus a focus timer, host I/O with no computation.
- IEEE-754 double arithmetic is not modelled. The model uses exact reals. The constants 0.35, 0.30, 1.55, 2.54, 0.453592 and 6.35029318 have no exact double, and a product such as `6.25 * height` rounds when the height (177.8 cm, say) is not itself a double; either can move a `Math.round` at a near-tie. The example lemmas give the same values in doubles.
- `parseFloat` results of ±Infinity, and negative zero, are not modelled. A reading is a real number or NaN.
