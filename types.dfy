/**
 * The records of the quotation engine (src/types/index.ts), plus the two
 * derived record shapes that the repository's operations accept
 * (`Omit<Project, 'id' | 'createdAt' | 'updatedAt'>` and `Partial<Project>`).
 */
module Types {

  datatype Option<+T> = None | Some(value: T) {
    function GetOr(default: T): T {
      match this
      case Some(v) => v
      case None => default
    }
  }

  /** A validation outcome: the value, or the failing fields in schema order. */
  datatype Result<+T, +E> = Ok(value: T) | Err(error: E)

  datatype PersonalDetails = PersonalDetails(name: string, phone: string, email: string, address: string)

  /** One free-text field and six numbers; `numberOfPanels` need not be whole. */
  datatype SystemConfiguration = SystemConfiguration(
    make: string,
    wattPeak: real,
    numberOfPanels: real,
    basePricePerKw: real,
    gstPercentage: real,
    cleaningCharges: real,
    subsidy: real)

  /** The four figures frozen into a project. */
  datatype Calculations = Calculations(
    systemSize: real,
    totalBasePrice: real,
    gstAmount: real,
    totalPayableAmount: real)

  /** A project is either a draft or completed, never both, never neither. */
  datatype Status = Draft | Completed

  /** A calendar month, the "YYYY-MM" prefix of an ISO-8601 timestamp. */
  datatype YearMonth = YearMonth(year: int, month: int)

  predicate ValidMonth(ym: YearMonth) {
    1 <= ym.month <= 12
  }

  /**
   * An ISO-8601 timestamp string, abstracted to the two things the core reads
   * from it: its epoch milliseconds (for ordering) and its "YYYY-MM" prefix.
   */
  datatype Instant = Instant(millis: int, month: YearMonth)

  /** An opaque image reference (an object URL in the source). */
  type ImageRef = string

  datatype Project = Project(
    id: string,
    personalDetails: PersonalDetails,
    systemConfiguration: SystemConfiguration,
    calculations: Calculations,
    images: seq<ImageRef>,
    status: Status,
    createdAt: Instant,
    updatedAt: Instant)

  /** The two process-wide defaults seeded into new quotation forms. */
  datatype AppSettings = AppSettings(defaultGstPercentage: real, defaultBasePricePerKw: real)

  /** One bar of the dashboard chart; the label is the month it stands for. */
  datatype MonthlyEntry = MonthlyEntry(month: YearMonth, income: real, projects: nat)

  datatype DashboardStats = DashboardStats(
    totalIncome: real,
    totalKwInstalled: real,
    totalProjects: nat,
    monthlyData: seq<MonthlyEntry>)

  /** A project without the three fields the repository stamps. */
  datatype ProjectDraft = ProjectDraft(
    personalDetails: PersonalDetails,
    systemConfiguration: SystemConfiguration,
    calculations: Calculations,
    images: seq<ImageRef>,
    status: Status)

  /** A partial project: `None` is a key absent from the patch object. */
  datatype ProjectPatch = ProjectPatch(
    id: Option<string>,
    personalDetails: Option<PersonalDetails>,
    systemConfiguration: Option<SystemConfiguration>,
    calculations: Option<Calculations>,
    images: Option<seq<ImageRef>>,
    status: Option<Status>,
    createdAt: Option<Instant>,
    updatedAt: Option<Instant>)

  const EmptyPatch := ProjectPatch(None, None, None, None, None, None, None, None)

  /** A partial settings record. */
  datatype SettingsPatch = SettingsPatch(defaultGstPercentage: Option<real>, defaultBasePricePerKw: Option<real>)
}
