/**
 * The quotation workflow (src/pages/Quotation.tsx): two validated forms and a
 * three-step state machine whose last step commits a draft project.
 */
module Quotation {
  import opened Types
  import opened Pricing
  import opened AppContext

  // ---------------------------------------------------------------------
  // Step 1: personal details

  /** The text inputs as submitted; an input left empty reads as "". */
  datatype PersonalDetailsForm = PersonalDetailsForm(name: string, phone: string, email: string, address: string)

  datatype PersonalField = NameField | PhoneField | EmailField | AddressField

  /**
   * personalDetailsSchema: all four strings required (non-empty), the email
   * also well-formed. The email syntax check is the parameter `isEmail`.
   */
  predicate PersonalFieldOk(f: PersonalDetailsForm, isEmail: string -> bool, field: PersonalField) {
    match field
    case NameField => f.name != ""
    case PhoneField => f.phone != ""
    case EmailField => f.email != "" && isEmail(f.email)
    case AddressField => f.address != ""
  }

  /** The failing fields among `fields`, in order. */
  function PersonalFailing(f: PersonalDetailsForm, isEmail: string -> bool, fields: seq<PersonalField>): (errs: seq<PersonalField>)
    ensures forall x :: x in errs <==> x in fields && !PersonalFieldOk(f, isEmail, x)
  {
    if fields == [] then []
    else
      var rest := PersonalFailing(f, isEmail, fields[1..]);
      assert fields == [fields[0]] + fields[1..];
      if PersonalFieldOk(f, isEmail, fields[0]) then rest else [fields[0]] + rest
  }

  /** Every field the schema rejects, in the form's order. */
  function PersonalErrors(f: PersonalDetailsForm, isEmail: string -> bool): (errs: seq<PersonalField>)
    ensures forall x :: x in errs <==> !PersonalFieldOk(f, isEmail, x)
    ensures errs == [] <==> f.name != "" && f.phone != "" && f.email != "" && isEmail(f.email) && f.address != ""
  {
    var all := [NameField, PhoneField, EmailField, AddressField];
    assert forall x: PersonalField :: x in all by {
      forall x: PersonalField ensures x in all {
        assert x == all[0] || x == all[1] || x == all[2] || x == all[3];
      }
    }
    var errs := PersonalFailing(f, isEmail, all);
    assert errs != [] ==> errs[0] in errs;
    assert (f.name != "" && f.phone != "" && f.email != "" && isEmail(f.email) && f.address != "") <==>
      (PersonalFieldOk(f, isEmail, NameField) && PersonalFieldOk(f, isEmail, PhoneField)
       && PersonalFieldOk(f, isEmail, EmailField) && PersonalFieldOk(f, isEmail, AddressField));
    errs
  }

  function ValidatePersonalDetails(f: PersonalDetailsForm, isEmail: string -> bool): (r: Result<PersonalDetails, seq<PersonalField>>)
    ensures r.Ok? <==> f.name != "" && f.phone != "" && f.email != "" && isEmail(f.email) && f.address != ""
    ensures r.Ok? ==> r.value == PersonalDetails(f.name, f.phone, f.email, f.address)
    ensures r.Err? ==> r.error != []
  {
    var errs := PersonalErrors(f, isEmail);
    if errs == [] then Ok(PersonalDetails(f.name, f.phone, f.email, f.address)) else Err(errs)
  }

  // ---------------------------------------------------------------------
  // Step 2: system configuration

  /** The configuration inputs as submitted; a numeric input left empty is None (NaN). */
  datatype SystemConfigForm = SystemConfigForm(
    make: string,
    wattPeak: Option<real>,
    numberOfPanels: Option<real>,
    basePricePerKw: Option<real>,
    gstPercentage: Option<real>,
    cleaningCharges: Option<real>,
    subsidy: Option<real>)

  datatype ConfigField = MakeField | WattPeakField | PanelsField | BasePriceField | GstField | CleaningField | SubsidyField

  predicate Positive(x: Option<real>) { x.Some? && x.value > 0.0 }

  predicate Percentage(x: Option<real>) { x.Some? && 0.0 <= x.value <= 100.0 }

  predicate NonNegative(x: Option<real>) { x.Some? && x.value >= 0.0 }

  /**
   * systemConfigSchema: make required; watt peak, panel count and base price
   * positive (the panel count need not be whole); GST within [0, 100];
   * cleaning charges and subsidy at least 0.
   */
  predicate ConfigFieldOk(f: SystemConfigForm, field: ConfigField) {
    match field
    case MakeField => f.make != ""
    case WattPeakField => Positive(f.wattPeak)
    case PanelsField => Positive(f.numberOfPanels)
    case BasePriceField => Positive(f.basePricePerKw)
    case GstField => Percentage(f.gstPercentage)
    case CleaningField => NonNegative(f.cleaningCharges)
    case SubsidyField => NonNegative(f.subsidy)
  }

  /** The failing fields among `fields`, in order. */
  function ConfigFailing(f: SystemConfigForm, fields: seq<ConfigField>): (errs: seq<ConfigField>)
    ensures forall x :: x in errs <==> x in fields && !ConfigFieldOk(f, x)
  {
    if fields == [] then []
    else
      var rest := ConfigFailing(f, fields[1..]);
      assert fields == [fields[0]] + fields[1..];
      if ConfigFieldOk(f, fields[0]) then rest else [fields[0]] + rest
  }

  /** Every field the schema rejects, in the form's order. */
  function ConfigErrors(f: SystemConfigForm): (errs: seq<ConfigField>)
    ensures forall x :: x in errs <==> !ConfigFieldOk(f, x)
    ensures errs == [] <==> ConfigFormValid(f)
  {
    var all := [MakeField, WattPeakField, PanelsField, BasePriceField, GstField, CleaningField, SubsidyField];
    assert forall x: ConfigField :: x in all by {
      forall x: ConfigField ensures x in all {
        assert x == all[0] || x == all[1] || x == all[2] || x == all[3] || x == all[4] || x == all[5] || x == all[6];
      }
    }
    var errs := ConfigFailing(f, all);
    assert errs != [] ==> errs[0] in errs;
    assert ConfigFormValid(f) <==>
      (ConfigFieldOk(f, MakeField) && ConfigFieldOk(f, WattPeakField) && ConfigFieldOk(f, PanelsField)
       && ConfigFieldOk(f, BasePriceField) && ConfigFieldOk(f, GstField) && ConfigFieldOk(f, CleaningField)
       && ConfigFieldOk(f, SubsidyField));
    errs
  }

  predicate ConfigFormValid(f: SystemConfigForm) {
    && f.make != "" && Positive(f.wattPeak) && Positive(f.numberOfPanels) && Positive(f.basePricePerKw)
    && Percentage(f.gstPercentage) && NonNegative(f.cleaningCharges) && NonNegative(f.subsidy)
  }

  /** A configuration the schema admits. */
  predicate ValidConfiguration(c: SystemConfiguration) {
    && c.make != ""
    && c.wattPeak > 0.0 && c.numberOfPanels > 0.0 && c.basePricePerKw > 0.0
    && 0.0 <= c.gstPercentage <= 100.0
    && c.cleaningCharges >= 0.0 && c.subsidy >= 0.0
  }

  function ValidateSystemConfig(f: SystemConfigForm): (r: Result<SystemConfiguration, seq<ConfigField>>)
    ensures r.Ok? <==> ConfigErrors(f) == []
    ensures r.Ok? ==> ValidConfiguration(r.value)
    ensures r.Ok? ==> r.value == SystemConfiguration(f.make, f.wattPeak.value, f.numberOfPanels.value,
                                                    f.basePricePerKw.value, f.gstPercentage.value,
                                                    f.cleaningCharges.value, f.subsidy.value)
  {
    var errs := ConfigErrors(f);
    if errs == [] then
      Ok(SystemConfiguration(f.make, f.wattPeak.value, f.numberOfPanels.value, f.basePricePerKw.value,
                             f.gstPercentage.value, f.cleaningCharges.value, f.subsidy.value))
    else Err(errs)
  }

  /** Every valid configuration is one the form can submit. */
  lemma ValidConfigurationIsSubmittable(c: SystemConfiguration)
    requires ValidConfiguration(c)
    ensures ValidateSystemConfig(FormOf(c)) == Ok(c)
  {
  }

  function FormOf(c: SystemConfiguration): SystemConfigForm {
    SystemConfigForm(c.make, Some(c.wattPeak), Some(c.numberOfPanels), Some(c.basePricePerKw),
                     Some(c.gstPercentage), Some(c.cleaningCharges), Some(c.subsidy))
  }

  /** A submitted configuration prices to non-negative size, base price and GST. */
  lemma SubmittedConfigurationPricesNonNegative(f: SystemConfigForm)
    requires ValidateSystemConfig(f).Ok?
    ensures var m := CalculateSystemMetrics(ValidateSystemConfig(f).value);
      m.systemSize >= 0.0 && m.totalBasePrice >= 0.0 && m.gstAmount >= 0.0
  {
    NonNegativeFigures(ValidateSystemConfig(f).value);
  }

  /** The form's initial values: price and GST from settings, no cleaning, no subsidy. */
  function SystemFormDefaults(s: AppSettings): SystemConfigForm {
    SystemConfigForm("", None, None, Some(s.defaultBasePricePerKw), Some(s.defaultGstPercentage), Some(0.0), Some(0.0))
  }

  /** Untouched, the form reports exactly the three fields it leaves empty. */
  lemma DefaultsNeedThreeFields(s: AppSettings)
    requires 0.0 <= s.defaultGstPercentage <= 100.0 && s.defaultBasePricePerKw > 0.0
    ensures forall x :: x in ConfigErrors(SystemFormDefaults(s)) <==> x in {MakeField, WattPeakField, PanelsField}
  {
  }

  /** Filling in the three empty fields of the defaults gives a priced-by-settings configuration. */
  lemma DefaultsOnceFilled(s: AppSettings, make: string, wattPeak: real, panels: real)
    requires 0.0 <= s.defaultGstPercentage <= 100.0 && s.defaultBasePricePerKw > 0.0
    requires make != "" && wattPeak > 0.0 && panels > 0.0
    ensures ValidateSystemConfig(SystemFormDefaults(s).(make := make, wattPeak := Some(wattPeak), numberOfPanels := Some(panels)))
            == Ok(SystemConfiguration(make, wattPeak, panels, s.defaultBasePricePerKw, s.defaultGstPercentage, 0.0, 0.0))
  {
  }

  // ---------------------------------------------------------------------
  // Step 3: commit

  /** The project data handed to addProject: priced now, no images, a draft. */
  function QuotationDraft(pd: PersonalDetails, c: SystemConfiguration): ProjectDraft {
    ProjectDraft(pd, c, CalculateSystemMetrics(c), [], Draft)
  }

  // ---------------------------------------------------------------------
  // The state machine

  class Workflow {
    var currentStep: int
    var personalDetails: Option<PersonalDetails>
    var systemConfig: Option<SystemConfiguration>

    /** Each step holds the data of the steps before it; a stored configuration passed the schema. */
    ghost predicate Valid()
      reads this
    {
      && 1 <= currentStep <= 3
      && (currentStep >= 2 ==> personalDetails.Some?)
      && (currentStep == 3 ==> systemConfig.Some?)
      && (systemConfig.Some? ==> ValidConfiguration(systemConfig.value))
    }

    constructor ()
      ensures Valid()
      ensures currentStep == 1 && personalDetails == None && systemConfig == None
    {
      currentStep := 1;
      personalDetails := None;
      systemConfig := None;
    }

    /** Submitting step 1 (only shown at step 1): on success store the details and go to step 2. */
    method SubmitPersonalDetails(f: PersonalDetailsForm, isEmail: string -> bool) returns (errs: seq<PersonalField>)
      requires Valid() && currentStep == 1
      modifies this
      ensures Valid()
      ensures errs == PersonalErrors(f, isEmail)
      ensures errs == [] ==> currentStep == 2 && personalDetails == Some(ValidatePersonalDetails(f, isEmail).value)
      ensures errs != [] ==> currentStep == 1 && personalDetails == old(personalDetails)
      ensures systemConfig == old(systemConfig)
    {
      errs := PersonalErrors(f, isEmail);
      var r := ValidatePersonalDetails(f, isEmail);
      if r.Ok? {
        personalDetails := Some(r.value);
        currentStep := 2;
      }
    }

    /** Submitting step 2 (only shown at step 2): on success store the configuration and go to step 3. */
    method SubmitSystemConfig(f: SystemConfigForm) returns (errs: seq<ConfigField>)
      requires Valid() && currentStep == 2
      modifies this
      ensures Valid()
      ensures errs == ConfigErrors(f)
      ensures errs == [] ==> currentStep == 3 && systemConfig == Some(ValidateSystemConfig(f).value)
      ensures errs != [] ==> currentStep == 2 && systemConfig == old(systemConfig)
      ensures personalDetails == old(personalDetails)
    {
      errs := ConfigErrors(f);
      var r := ValidateSystemConfig(f);
      if r.Ok? {
        systemConfig := Some(r.value);
        currentStep := 3;
      }
    }

    /** The Back button of step 2: only the step changes. */
    method BackToPersonalDetails()
      requires Valid() && currentStep == 2
      modifies this
      ensures Valid()
      ensures currentStep == 1
      ensures personalDetails == old(personalDetails) && systemConfig == old(systemConfig)
    {
      currentStep := 1;
    }

    /** The Back button of step 3: only the step changes. */
    method BackToSystemConfig()
      requires Valid() && currentStep == 3
      modifies this
      ensures Valid()
      ensures currentStep == 2
      ensures personalDetails == old(personalDetails) && systemConfig == old(systemConfig)
    {
      currentStep := 2;
    }

    /**
     * handleFinalSubmit: without both details and configuration nothing
     * happens; otherwise a priced draft with no images is added under the
     * fresh id and that id is returned. The workflow itself is not changed.
     */
    method FinalSubmit(repo: Repository, id: string, now: Instant) returns (created: Option<string>)
      requires Valid() && repo.Valid()
      modifies repo
      ensures repo.Valid()
      ensures created.None? <==> old(personalDetails.None? || systemConfig.None?)
      ensures created.None? ==> repo.projects == old(repo.projects) && repo.storedProjects == old(repo.storedProjects)
      ensures created.Some? ==>
                && created.value == id
                && repo.projects == old(repo.projects) + [FromDraft(QuotationDraft(personalDetails.value, systemConfig.value), id, now)]
                && repo.storedProjects == Some(repo.projects)
      ensures created.Some? ==>
                var p := repo.projects[|repo.projects| - 1];
                && p.status == Draft && p.images == []
                && p.personalDetails == personalDetails.value && p.systemConfiguration == systemConfig.value
                && p.calculations == CalculateSystemMetrics(systemConfig.value)
                && p.createdAt == now && p.updatedAt == now
                && ValidConfiguration(p.systemConfiguration)
                && p.calculations.systemSize >= 0.0 && p.calculations.totalBasePrice >= 0.0
                && p.calculations.gstAmount >= 0.0
      ensures repo.settings == old(repo.settings) && repo.storedSettings == old(repo.storedSettings)
    {
      if personalDetails.None? || systemConfig.None? {
        return None;
      }
      NonNegativeFigures(systemConfig.value);
      var projectId := repo.AddProject(QuotationDraft(personalDetails.value, systemConfig.value), id, now);
      created := Some(projectId);
    }

    /** At step 3 the commit guard always passes. */
    lemma CommitReadyAtStepThree()
      requires Valid() && currentStep == 3
      ensures personalDetails.Some? && systemConfig.Some?
    {
    }
  }
}
