# Solar quotation engine, in Dafny

This project models the core of a browser-local tool for selling rooftop solar installations. A salesperson enters a customer's details and a system configuration. The tool prices the system, commits the quotation as a draft project, and lets the project later be marked completed or given site photos. A dashboard and a settings page summarise the projects.

The model has one module per source file:

- `Types` (src/types/index.ts) holds the records: personal details, system configuration, the four calculated figures, project, settings and dashboard statistics. It also holds the two derived shapes the repository accepts: a project without id and timestamps, and a partial project.
- `Pricing` (src/utils/calculations.ts) is the pricing calculator, over exact reals. JavaScript's `Math.round` is `Floor(x + 1/2)`.
- `AppContext` (src/context/AppContext.tsx) is the project repository. It is a class `Repository` with the project list and the settings as fields. Two ghost fields stand for what browser storage holds under the two keys. Its methods are add, update, delete and update-settings. Its functions are lookup by id and the dashboard statistics. The pure list operations behind them are functions with their own lemmas.
- `Quotation` (src/pages/Quotation.tsx) holds the two form schemas as validators and the three-step wizard as a class `Workflow`. The wizard has forward and back transitions and a guarded final commit into the repository.
- `ProjectDetail` (src/pages/ProjectDetail.tsx) holds the not-found guard, the status change and the image upload.
- `Dashboard` (src/pages/Dashboard.tsx) holds the in-place newest-first sort of the shared project list, the five most recent projects and the completed badge.
- `SettingsPage` (src/pages/Settings.tsx) holds the settings schema, its submit handler and the project counts shown.

Values the code reads from the environment are parameters:

- `Date.now()` is the new id.
- `new Date().toISOString()` is an `Instant`, which carries epoch milliseconds and a calendar month.
- The current month is a `YearMonth`.
- The email syntax check is a predicate `isEmail`.
- Selected files are an optional list of image references.

The code is followed where it departs from an idealised design:

- `addProject` and `updateProject` store whatever calculations the caller passes and never recompute them. A configuration patch without a calculations patch leaves stale figures; the `Merge` contract states this.
- Ids are caller-supplied timestamps, so uniqueness is not guaranteed. The repository's contracts state what holds when the ids are unique, and what `find` does when they are not: the older record shadows the newer one.
- The dashboard's `sort` reorders the provider's array without writing storage. The repository invariant therefore ties the in-memory list to storage up to order, as a multiset.

## Model

| member | source | states |
|---|---|---|
| Pricing.Round | src/utils/calculations.ts:10-13 | the rounded value is an integer in the window (x - 1/2, x + 1/2], i.e. halves go up |
| Pricing.RoundUnique | src/utils/calculations.ts:10-13 | any integer in that window is the rounded value |
| Pricing.RoundMonotone | src/utils/calculations.ts:10-13 | rounding preserves order |
| Pricing.CalculateSystemMetrics | src/utils/calculations.ts:3-15 | size has two decimals and is within 1/200 of the raw size; base price, GST and total are whole and within 1/2 of the raw base price, raw GST (from the raw base price) and raw total |
| Pricing.ZeroGstGivesZeroAmount | src/utils/calculations.ts:6-12 | a zero GST percentage gives a zero GST amount |
| Pricing.NonNegativeFigures | src/utils/calculations.ts:4-12 | non-negative watt peak, panel count, price and GST give non-negative size, base price and GST amount |
| Pricing.TotalNonIncreasingInSubsidy | src/utils/calculations.ts:7-13 | raising the subsidy never raises the total payable |
| Pricing.TotalNonDecreasingInCleaning | src/utils/calculations.ts:7-13 | raising cleaning charges never lowers the total payable |
| Pricing.TotalWithinOneOfRoundedParts | src/utils/calculations.ts:7-13 | with whole cleaning charges and subsidy, the total differs by at most 1 from the sum of the rounded parts |
| Pricing.MetricsFromRaw | src/utils/calculations.ts:3-15 | four integers inside the four rounding windows are exactly the calculator's result |
| Pricing.TotalDiffersFromRoundedParts | src/utils/calculations.ts:7-13 | a valid configuration whose total (3) is not base + GST of the rounded parts (4): the total is rounded once from the raw sum |
| Pricing.DefaultSettingsExample | src/utils/calculations.ts:3-15 | 540 Wp x 20 panels at 50000/kW, 13.8% GST, 5000 cleaning, 10000 subsidy give 10.8 kW, 540000, 74520, 609520 |
| AppContext.FindProject | src/context/AppContext.tsx:75-77 | none exactly when no record has the id; otherwise a record of the list with that id |
| AppContext.FindAppend | src/context/AppContext.tsx:75-77 | lookup returns the first match: on a concatenation the left part wins |
| AppContext.FindUnique | src/context/AppContext.tsx:75-77 | with unique ids, looking up a record's id returns that record |
| AppContext.FromDraft | src/context/AppContext.tsx:47-52 | the caller's fields are kept verbatim, the id is the supplied one and createdAt = updatedAt = now |
| AppContext.AddThenGet | src/context/AppContext.tsx:54-77 | after an add, looking up the new id finds the new record if the id was unused, else the older record |
| AppContext.AddKeepsUniqueIds | src/context/AppContext.tsx:49-54 | adding a record with an unused id keeps ids unique |
| AppContext.Merge | src/context/AppContext.tsx:63 | every field present in the patch replaces the record's and every absent one (calculations included) is kept, except updatedAt, which is always now even over a patched updatedAt; an empty patch only refreshes updatedAt |
| AppContext.UpdateAll | src/context/AppContext.tsx:62-64 | same length and order; each record is merged if its id matches, else identical |
| AppContext.UpdateAbsentIsNoop | src/context/AppContext.tsx:62-64 | an absent id leaves the list unchanged |
| AppContext.UpdateKeepsUniqueIds | src/context/AppContext.tsx:62-64 | a patch without an id keeps ids unique |
| AppContext.UpdateThenGet | src/context/AppContext.tsx:62-77 | after updating an existing unique id, lookup returns the merged record |
| AppContext.Without | src/context/AppContext.tsx:70 | the survivors are exactly the records with another id; an absent id changes nothing |
| AppContext.WithoutAppend | src/context/AppContext.tsx:70 | deletion keeps the order of the remaining records (it distributes over concatenation) |
| AppContext.DeleteThenGet | src/context/AppContext.tsx:69-77 | after a delete the id is not found and every other id's lookup is unchanged |
| AppContext.DeleteRemovesOne | src/context/AppContext.tsx:69-73 | with unique ids, deleting an existing id removes exactly one record |
| AppContext.ApplySettings | src/context/AppContext.tsx:79-80 | each field present in the patch replaces the current one; each absent field is kept |
| AppContext.ApplySettingsIdempotent | src/context/AppContext.tsx:79-80 | applying a settings patch twice equals applying it once |
| AppContext.WithStatus | src/context/AppContext.tsx:86 | the selection holds exactly the records with that status |
| AppContext.WithStatusAppend | src/context/AppContext.tsx:86 | the status selection distributes over concatenation |
| AppContext.SumsAppend | src/context/AppContext.tsx:88-94 | the income and size sums distribute over concatenation |
| AppContext.MonthAt | src/context/AppContext.tsx:97-100 | a month index maps back to a valid calendar month with that index |
| AppContext.Window | src/context/AppContext.tsx:97-111 | six valid months, oldest first, consecutive and ending at the current month |
| AppContext.CreatedIn | src/context/AppContext.tsx:102-104 | the selection holds exactly the records created in that month |
| AppContext.CreatedInAny | src/context/AppContext.tsx:102-104 | the selection holds exactly the records created in one of the months |
| AppContext.Buckets | src/context/AppContext.tsx:97-111 | one entry per month, holding that month's count and income |
| AppContext.EmptyStats | src/context/AppContext.tsx:85-119 | no projects give zero totals and six zero bars |
| AppContext.AddingDraftKeepsFigures | src/context/AppContext.tsx:86-116 | a draft changes only the project count |
| AppContext.AddingCompletedAddsFigures | src/context/AppContext.tsx:86-116 | a completed project adds its total, its size and one to the count |
| AppContext.CreatedInAnySplit | src/context/AppContext.tsx:102-109 | splitting one month off a set of months splits the count and the income |
| AppContext.BucketsTotals | src/context/AppContext.tsx:97-111 | over distinct months the bars together count and sum exactly the projects created in those months |
| AppContext.NoneInEmpty | src/context/AppContext.tsx:102-104 | no record is created in no month |
| AppContext.MonthlyDataDescribesWindow | src/context/AppContext.tsx:97-111 | six bars for the last six months, oldest first, that count and sum exactly the completed projects created in that window |
| AppContext.Repository.constructor | src/context/AppContext.tsx:27-44 | starts from the defaults (13.8% GST, 50000 per kW), replaced by whatever storage holds |
| AppContext.Repository.AddProject | src/context/AppContext.tsx:46-59 | list becomes old + [new record]; returns its id; storage mirrors the list; with unique ids the new record is found under its id |
| AppContext.Repository.UpdateProject | src/context/AppContext.tsx:61-67 | list becomes the pointwise merge; storage mirrors it; an absent id changes nothing |
| AppContext.Repository.DeleteProject | src/context/AppContext.tsx:69-73 | list becomes the filtered list; storage mirrors it; the id is no longer found |
| AppContext.Repository.GetProject | src/context/AppContext.tsx:75-77 | none exactly when the id is absent; otherwise a record with that id |
| AppContext.Repository.UpdateSettings | src/context/AppContext.tsx:79-83 | settings become the merge; storage mirrors them; projects untouched |
| AppContext.Repository.GetDashboardStats | src/context/AppContext.tsx:85-119 | the project count is all projects; income and kW sum the completed ones; six monthly bars |
| Quotation.PersonalFailing | src/pages/Quotation.tsx:22-27 | the failing fields are exactly those that break the schema |
| Quotation.PersonalErrors | src/pages/Quotation.tsx:22-27 | a field is reported exactly when it breaks the schema; none is reported exactly when all four are non-empty and the email is well-formed |
| Quotation.ValidatePersonalDetails | src/pages/Quotation.tsx:22-27 | accepts exactly the valid forms and returns their values; a rejection lists at least one field |
| Quotation.ConfigFailing | src/pages/Quotation.tsx:29-37 | the failing fields are exactly those that break the schema |
| Quotation.ConfigErrors | src/pages/Quotation.tsx:29-37 | a field is reported exactly when it breaks the schema; none exactly when the form is valid |
| Quotation.ValidateSystemConfig | src/pages/Quotation.tsx:29-37 | accepts exactly the error-free forms and returns a configuration with positive watt peak, panel count and price, GST in [0, 100], and non-negative charges and subsidy |
| Quotation.ValidConfigurationIsSubmittable | src/pages/Quotation.tsx:29-37 | every such configuration is accepted when entered as it is |
| Quotation.SubmittedConfigurationPricesNonNegative | src/pages/Quotation.tsx:29-37 | an accepted configuration prices to non-negative size, base price and GST |
| Quotation.DefaultsNeedThreeFields | src/pages/Quotation.tsx:53-61 | the untouched form, seeded from valid settings, reports exactly make, watt peak and panel count |
| Quotation.DefaultsOnceFilled | src/pages/Quotation.tsx:53-61 | filling those three gives the configuration priced by the settings, with no cleaning and no subsidy |
| Quotation.Workflow.constructor | src/pages/Quotation.tsx:45-47 | step 1 with no stored details or configuration |
| Quotation.Workflow.SubmitPersonalDetails | src/pages/Quotation.tsx:67-70 | on a valid form stores the details and moves to step 2; otherwise nothing changes |
| Quotation.Workflow.SubmitSystemConfig | src/pages/Quotation.tsx:72-75 | on a valid form stores the configuration and moves to step 3; otherwise nothing changes; the invariant keeps every stored configuration one the schema accepted |
| Quotation.Workflow.BackToPersonalDetails | src/pages/Quotation.tsx:370 | step 2 to step 1, data kept |
| Quotation.Workflow.BackToSystemConfig | src/pages/Quotation.tsx:451 | step 3 to step 2, data kept |
| Quotation.Workflow.FinalSubmit | src/pages/Quotation.tsx:77-91 | does nothing unless both details and configuration are present; otherwise appends a draft with no images, the entered data and the calculator's figures, and returns its id; the committed configuration passed the schema and its size, base price and GST are non-negative |
| Quotation.Workflow.CommitReadyAtStepThree | src/pages/Quotation.tsx:78 | at step 3 the commit guard always passes |
| ProjectDetail.Lookup | src/pages/ProjectDetail.tsx:33-35 | not found exactly when the route id is missing, empty or unknown |
| ProjectDetail.StatusChangeEffect | src/pages/ProjectDetail.tsx:65-68 | a status patch changes only the status and updatedAt of matching records, even when the status is unchanged |
| ProjectDetail.ImageUploadEffect | src/pages/ProjectDetail.tsx:74-77 | images become old + new, keeping the old prefix; the length adds up; with unique ids other records are untouched |
| ProjectDetail.ChangeStatus | src/pages/ProjectDetail.tsx:33-68 | an unknown project changes nothing; otherwise a status-only patch of that project's id |
| ProjectDetail.UploadImages | src/pages/ProjectDetail.tsx:33-80 | no project or no file list changes nothing; otherwise that project's images become old + new |
| Dashboard.InsertNewestFirst | src/pages/Dashboard.tsx:22-23 | one step of the sort adds exactly one element |
| Dashboard.InsertKeepsOrder | src/pages/Dashboard.tsx:23 | inserting into a newest-first list keeps it newest first |
| Dashboard.SortNewestFirst | src/pages/Dashboard.tsx:22-23 | the sort is a permutation of its input |
| Dashboard.SortIsOrdered | src/pages/Dashboard.tsx:23 | the sorted list is newest first |
| Dashboard.Recent | src/pages/Dashboard.tsx:22-24 | at most five projects of the list; all of them when there are at most five |
| Dashboard.Older | src/pages/Dashboard.tsx:22-24 | the projects left out are the rest of the sorted list |
| Dashboard.RecentAreNewest | src/pages/Dashboard.tsx:22-24 | the recent list is newest first and no left-out project is newer than a shown one |
| Dashboard.RecentProjects | src/pages/Dashboard.tsx:22-24 | reorders the shared list in place (a permutation, storage untouched) and returns the recent five |
| Dashboard.CompletedCount | src/pages/Dashboard.tsx:90 | at most the number of projects |
| Dashboard.CompletedCountIgnoresOrder | src/pages/Dashboard.tsx:22-90 | the badge read after the in-place sort equals the count before it |
| Dashboard.InsertCount | src/pages/Dashboard.tsx:23-90 | one step of the sort adds the inserted project's contribution to the count |
| SettingsPage.ValidateSettings | src/pages/Settings.tsx:17-20 | accepts exactly GST in [0, 100] with a positive base price; the accepted settings seed the same form |
| SettingsPage.SeedRoundTrip | src/pages/Settings.tsx:17-33 | the schema accepts the seeded values exactly when the settings are valid, and then yields those settings |
| SettingsPage.DefaultSettingsAreValid | src/context/AppContext.tsx:28-31 | the default settings satisfy the settings schema |
| SettingsPage.OnSubmit | src/pages/Settings.tsx:33-123 | while the form still holds the values it was seeded with, the Save button is disabled and nothing changes; otherwise a valid form replaces both settings and writes storage, and an invalid one changes nothing; projects untouched |
| SettingsPage.CountsAddUp | src/pages/Settings.tsx:181-196 | completed plus draft counts equal the number of projects |

## Left out

- Browser storage reads and writes are the ghost fields `storedProjects` and `storedSettings`. The JSON text is not modelled, so the load on mount is the constructor taking the already-parsed values. The JSON round trip cannot be stated without a serializer.
- `exportData` and the settings page's export and clear-all handlers are not modelled: they only download a file or clear storage and reload the page.
- Numbers are exact reals, not IEEE-754 doubles, so binary rounding artefacts (for instance of 13.8 x 540000 / 100) are not modelled.
- Dates are abstracted. The two clock reads of `addProject` are one `now`. The ISO "YYYY-MM" key of a timestamp is an input. The chart's `toLocaleDateString` label is the month itself. The UTC-versus-local difference between that label and the ISO key is not modelled, and neither is the day-31 overflow of `setMonth`.
- `createdAt` ordering uses epoch milliseconds directly; parsing the ISO string is not modelled.
- PDF generation, toasts, navigation, `URL.createObjectURL` (file references are inputs) and `Intl.NumberFormat` (`formatCurrency`, `formatNumber`) are foreign code and not modelled. yup's email regular expression is the parameter `isEmail`.
- JSX rendering, the live price preview, src/components/Layout.tsx and src/App.tsx (routing and login gating) are user interface and not modelled.
- React's state scheduling is not modelled: each handler acts on the state it is called with.
- Quotation.Workflow.SubmitPersonalDetails and Quotation.Workflow.SubmitSystemConfig require the step whose form is rendered, because each form exists only at its step.
- Dashboard.SortNewestFirst is an insertion sort. Stability of the ES2019 sort (equal timestamps keep their order) is how it is built, but no contract states it.
- A numeric input left empty is `None`. yup rejects it, and the model makes no finer distinction between type errors and range errors.
- Errors are reported per field, without the schema's message text.
- The settings form's dirty flag is the form's values differing from the values it was seeded with when the page mounted. Which inputs were touched is not modelled.
