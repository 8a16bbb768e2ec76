/** The `MacroMonitor` object of app.js: one mutable field, `profile`, set by
    `saveProfile` after its height guard and by `loadProfile` from storage, and
    `calculateResults`, which guards the weight, persists it and runs the
    estimation chain. Browser storage is represented by two ghost fields that
    record what the object writes; what it reads from storage arrives as
    parameters. Alerts and the DOM updates are left out; a rejected input is a
    result value. */
module Monitor {
  import opened Wrappers
  import opened JsMath
  import opened Units
  import opened Estimation

  /** The outcome of `calculateResults`: the weight alert, the `TypeError`
      raised when no profile has been set, or the figures shown. */
  datatype Outcome = InvalidWeight | ProfileMissing | Shown(display: Display)

  /** The profile fields read from the form when it is submitted. */
  datatype ProfileForm = ProfileForm(sex: string, age: Option<real>, height: HeightEntry, activityLevel: Option<real>)

  /** A profile after a round trip through `JSON.stringify` and `JSON.parse`:
      a NaN age or activity level is written as `null`, and `null` counts as 0
      in the arithmetic of the estimation chain. */
  function Revived(p: Profile): (r: Profile)
    ensures r.sex == p.sex && r.height == p.height
    ensures r.age == Some(OrZero(p.age)) && r.activityLevel == Some(OrZero(p.activityLevel))
  {
    Profile(p.sex, Some(if p.age.Some? then p.age.value else 0.0), p.height,
            Some(if p.activityLevel.Some? then p.activityLevel.value else 0.0))
  }

  /** A profile with a number in every field is unchanged by the round trip. */
  lemma RevivedKeepsNumbers(p: Profile)
    requires p.age.Some? && p.activityLevel.Some?
    ensures Revived(p) == p
  {
  }

  /** A reloaded profile always yields every figure: the NaNs of the session
      that saved it have become zeros. */
  lemma RevivedEstimateDefined(p: Profile, weight: real)
    ensures var d := Estimate(Revived(p), weight);
            d.bmr.Some? && d.tdee.Some? && d.targets.Some? && d.macros.Some?
  {
  }

  class MacroMonitor {
    /** `this.profile`; `None` is `null`. */
    var profile: Option<Profile>
    /** The profile last written to storage under "userProfile"; `None`
        while nothing has been written. */
    ghost var storedProfile: Option<Profile>
    /** The weight last written to storage under "currentWeight"; `None`
        while nothing has been written. */
    ghost var storedWeight: Option<real>

    /** `new MacroMonitor()` up to its call of `init`: no profile yet.
        `init` goes on with `LoadProfile`. */
    constructor()
      ensures profile == None && storedProfile == None && storedWeight == None
    {
      profile := None;
      storedProfile := None;
      storedWeight := None;
    }

    /** `saveProfile`: a NaN, zero or negative height raises the alert and
        changes nothing; otherwise the profile is built from the form, stored
        and becomes the current profile. */
    method SaveProfile(form: ProfileForm) returns (saved: bool)
      modifies this`profile, this`storedProfile
      ensures var height := ConvertHeightToCm(form.height);
              saved <==> height.Some? && height.value > 0.0
      ensures !saved ==> profile == old(profile) && storedProfile == old(storedProfile)
      ensures saved ==> profile == storedProfile
                     == Some(Profile(form.sex, form.age, ConvertHeightToCm(form.height).value, form.activityLevel))
    {
      var heightCm := ConvertHeightToCm(form.height);
      if !Positive(heightCm) {
        return false;
      }
      var p := Profile(form.sex, form.age, heightCm.value, form.activityLevel);
      storedProfile := Some(p);
      profile := Some(p);
      saved := true;
    }

    /** `calculateResults`: a NaN, zero or negative weight raises the alert
        before anything is stored. An accepted weight is stored first; then a
        missing profile raises a `TypeError`, and otherwise the figures of
        `Estimate` for the 1.5 lb/week target are shown. The profile is never
        changed. */
    method CalculateResults(entry: WeightEntry) returns (outcome: Outcome)
      modifies this`storedWeight
      ensures var weight := ConvertWeightToKg(entry);
              if weight.Some? && weight.value > 0.0 then
                && storedWeight == weight
                && (profile.None? ==> outcome == ProfileMissing)
                && (profile.Some? ==> outcome == Shown(Estimate(profile.value, weight.value)))
              else
                outcome == InvalidWeight && storedWeight == old(storedWeight)
    {
      var weight := ConvertWeightToKg(entry);
      if !Positive(weight) {
        return InvalidWeight;
      }
      storedWeight := weight;
      if profile.None? {
        return ProfileMissing;
      }
      var p := profile.value;
      if p.age.None? {
        return Shown(Display(None, None, None, None));
      }
      var bmr := CalculateBMR(p.sex, p.age.value, p.height, weight.value);
      if p.activityLevel.None? {
        return Shown(Display(Some(bmr), None, None, None));
      }
      var tdee := CalculateTDEE(bmr, p.activityLevel.value);
      var weightLoss := CalculateWeightLossCalories(tdee as real);
      var macros := CalculateMacros(weightLoss.loss15 as real);
      outcome := Shown(Display(Some(bmr), Some(tdee), Some(weightLoss), Some(macros)));
    }

    /** `loadProfile`, given what storage holds: `saved` and `savedWeight` are
        `None` when nothing is stored under the key, and the result is `None`
        when `calculateResults` does not run. Without a stored profile
        nothing happens. Otherwise the revived profile becomes current and, if
        a weight is stored as well, it is put back in the kilogram field and
        `calculateResults` runs on it. */
    method LoadProfile(saved: Option<Profile>, savedWeight: Option<real>) returns (outcome: Option<Outcome>)
      modifies this`profile, this`storedWeight
      ensures saved.None? ==> profile == old(profile) && outcome.None? && storedWeight == old(storedWeight)
      ensures saved.Some? ==> profile == Some(Revived(saved.value))
      ensures saved.Some? && savedWeight.None? ==> outcome.None? && storedWeight == old(storedWeight)
      ensures saved.Some? && savedWeight.Some? && savedWeight.value > 0.0 ==>
                && outcome == Some(Shown(Estimate(Revived(saved.value), savedWeight.value)))
                && storedWeight == savedWeight
      ensures saved.Some? && savedWeight.Some? && savedWeight.value <= 0.0 ==>
                outcome == Some(InvalidWeight) && storedWeight == old(storedWeight)
    {
      if saved.None? {
        return None;
      }
      profile := Some(Revived(saved.value));
      if savedWeight.None? {
        return None;
      }
      var shown := CalculateResults(Kilograms(savedWeight));
      outcome := Some(shown);
    }
  }
}
