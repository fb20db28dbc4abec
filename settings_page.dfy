/**
 * The settings page (src/pages/Settings.tsx): the settings schema, the save
 * handler and the project counts it shows.
 */
module SettingsPage {
  import opened Types
  import opened AppContext

  /** The two numeric inputs as submitted; an empty input is None (NaN). */
  datatype SettingsForm = SettingsForm(defaultGstPercentage: Option<real>, defaultBasePricePerKw: Option<real>)

  /** What the schema admits: GST within [0, 100], a positive base price. */
  predicate ValidSettings(s: AppSettings) {
    0.0 <= s.defaultGstPercentage <= 100.0 && s.defaultBasePricePerKw > 0.0
  }

  function ValidateSettings(f: SettingsForm): (r: Option<AppSettings>)
    ensures r.Some? <==> && f.defaultGstPercentage.Some? && 0.0 <= f.defaultGstPercentage.value <= 100.0
                         && f.defaultBasePricePerKw.Some? && f.defaultBasePricePerKw.value > 0.0
    ensures r.Some? ==> ValidSettings(r.value) && SeedForm(r.value) == f
  {
    if && f.defaultGstPercentage.Some? && 0.0 <= f.defaultGstPercentage.value <= 100.0
       && f.defaultBasePricePerKw.Some? && f.defaultBasePricePerKw.value > 0.0
    then Some(AppSettings(f.defaultGstPercentage.value, f.defaultBasePricePerKw.value))
    else None
  }

  /** `defaultValues: settings`: the form opens on the current settings. */
  function SeedForm(s: AppSettings): SettingsForm {
    SettingsForm(Some(s.defaultGstPercentage), Some(s.defaultBasePricePerKw))
  }

  /** The schema accepts the seeded values exactly when the settings are valid, and then gives them back. */
  lemma SeedRoundTrip(s: AppSettings)
    ensures ValidateSettings(SeedForm(s)) == if ValidSettings(s) then Some(s) else None
  {
  }

  lemma DefaultSettingsAreValid()
    ensures ValidSettings(DefaultSettings)
  {
  }

  /**
   * The Save button, then onSubmit. `seed` is the settings the form was
   * seeded with when the page mounted: while the form still holds exactly
   * those values it is not dirty, the button is disabled and nothing happens.
   * Otherwise a valid form replaces both settings fields and an invalid one
   * changes nothing.
   */
  method OnSubmit(repo: Repository, seed: AppSettings, f: SettingsForm) returns (saved: bool)
    requires repo.Valid()
    modifies repo
    ensures repo.Valid()
    ensures saved <==> f != SeedForm(seed) && ValidateSettings(f).Some?
    ensures saved ==> repo.settings == ValidateSettings(f).value && repo.storedSettings == Some(repo.settings)
    ensures !saved ==> repo.settings == old(repo.settings) && repo.storedSettings == old(repo.storedSettings)
    ensures repo.projects == old(repo.projects) && repo.storedProjects == old(repo.storedProjects)
  {
    if f == SeedForm(seed) {
      return false;
    }
    var s := ValidateSettings(f);
    if s.None? {
      return false;
    }
    repo.UpdateSettings(SettingsPatch(Some(s.value.defaultGstPercentage), Some(s.value.defaultBasePricePerKw)));
    saved := true;
  }

  /** The "Completed" and "Draft" counts always add up to "Total Projects". */
  lemma {:induction false} CountsAddUp(ps: seq<Project>)
    ensures |WithStatus(ps, Completed)| + |WithStatus(ps, Draft)| == |ps|
  {
    if ps != [] {
      CountsAddUp(ps[1..]);
    }
  }
}
