# WRF configuration wizard, modelled in Dafny

This project models the core of the ONEMULE/Wolfer WRF wizard. The wizard builds a WRF run
configuration step by step: time window, domain, physics and dynamics. It checks the
configuration, shows it for review and turns it into the Fortran namelist files `namelist.wps`
and `namelist.input`, plus a GFS download script. Three rewrites of this logic live side by
side in the repository, and all three are modelled:

- **The React wizard** (`react_version/src`). Its two configuration stores and their reducers
  are `GlobalConfig` and `WizardConfig`. Its option tables and `DEFAULT_CONFIG` are `Options`,
  and its date and validation helpers are `Helpers`. The Time, Domain, Physics and Dynamics
  steps are split into form and page modules (`TimeForm`/`TimePage`, `DomainForm`/`DomainPage`,
  `PhysicsForm`/`PhysicsPage`, `DynamicsForm`/`DynamicsPage`). Review and Output are `Review` and
  `Output`. The sidebar is `Sidebar`, and the Lingxi assistant is `LingxiApi` and `LingxiAssistant`.
- **The Flask back end** (`backend/app.py`) is `BackendApp`. It renders single-domain namelists
  from the React store.
- **The legacy web wizard**. Its generator (`web_version/generator_module.py`) is `Generator`.
  Its page script (`web_version/static/js/script.js`) is `LegacyForm` and `LegacyWizard`.

Supporting modules model the two languages' values, with the limits listed under "## Left out":
- `JsValue`: JavaScript values, truthiness, property access, spread, `trim`, `split`,
  `parseInt` (decimal and `0x`), `parseFloat` and the number conversion (with exponents),
  and number-to-string in positional notation.
- `PyValue`: Python values as the generators see them.
- `PyDatetime`: `strptime` with the WRF date format.
- `Decimals`: numbers as exact decimals.
- `Calendar`: the proleptic Gregorian calendar as day numbers.
- `Namelist`: namelist text and how a reader finds its groups.
- `Wrappers`: `Option` and `Result`.

Component state that the source updates in place is modelled as classes with methods. This
covers the forms' `formValues` and `errors`, the Output page, the Lingxi chat, the legacy
wizard's pages and step indicators, and the generator's configuration. Loops that the source
runs are methods with loop invariants, proved against specification functions. Examples are
the form-value initialisers, the save loop over the legacy form's controls, the dotted-path
write, and the GFS day and hour loops. Everything else is functions and lemmas.

Some places where the rewrites disagree are stated as lemmas rather than smoothed over:
- The physics form's selects write scalar keys such as `mp_physics`, but the physics gate and
  Review read `_arr` lists. The page seeds the form with the stored section, so a submit only
  carries those lists back unchanged (`PhysicsPage.FormSubmitKeepsGate`,
  `Review.PhysicsRowsIgnoreForm`).
- The Domain page stores `ref_lat_arr`, but the back end reads `ref_lat`
  (`BackendApp.RefLatIgnoresList`).
- The Output page validates a flat document with `start_date`, which the React steps never
  write (`Output.StoreShapeFailsTime`).
- Review accepts a microphysics code 0 that the Physics page refuses
  (`Review.ZeroMicrophysicsAccepted`).
- The two generators split a negative run length differently (`Generator.NegativeRunDiffers`).

## Model

| member | source | states |
|---|---|---|
| Options.Keys | react_version/src/utils/constants.js:47-56 | `Object.keys` of a code table lists each entry's code as a property key, in table order |
| Options.LookupByCode | react_version/src/utils/constants.js:47-102 | looking up a code's key finds a label exactly when the table offers that code, and the label is that code's own |
| Options.CodesHaveEntries | react_version/src/utils/constants.js:47-102 | a code is in a table's code set exactly when some entry carries it |
| Options.MpPhysicsCodes | react_version/src/utils/constants.js:48-56 | the microphysics codes are exactly {1, 2, 3, 4, 6, 8, 10} |
| Options.CuPhysicsCodes | react_version/src/utils/constants.js:81-87 | the cumulus codes are exactly {0, 1, 2, 3, 5} |
| Options.DiffOptCodes | react_version/src/utils/constants.js:92-96 | the diffusion codes are exactly {0, 1, 2} |
| Options.KmOptCodes | react_version/src/utils/constants.js:97-102 | the eddy-coefficient codes are exactly {1, 2, 3, 4} |
| Options.ProjectionCodes | react_version/src/utils/constants.js:106-111 | the projection codes are exactly {1, 2, 3, 6} |
| Options.DataSourceKeys | react_version/src/utils/constants.js:114-119 | the data sources are exactly GFS, ERA5, FNL and NARR |
| Options.DefaultMicrophysicsAndLongwave | react_version/src/utils/constants.js:22-29 | the default mp_physics and ra_lw_physics are offered by their tables |
| Options.DefaultShortwaveAndSurface | react_version/src/utils/constants.js:22-29 | the default ra_sw_physics and sf_surface_physics are offered by their tables |
| Options.DefaultBoundaryLayerAndCumulus | react_version/src/utils/constants.js:22-29 | the default bl_pbl_physics and cu_physics are offered by their tables |
| Options.DefaultDynamicsOffered | react_version/src/utils/constants.js:30-34 | the default diff_opt 2 and km_opt 4 are offered by DYNAMICS_OPTIONS |
| Options.DefaultNestedArrays | react_version/src/utils/constants.js:16-19 | the four default nested-domain arrays have three entries and start with 1 |
| Options.FirstKeyParses | react_version/src/utils/constants.js:91-102 | the first key of a dynamics table, read with parseInt, is its first code |
| WizardConfig.UpdateConfigSection | react_version/src/context/ConfigContext.js:99-103 | the named section becomes the old one overlaid by the payload (payload keys take the payload's values, other old keys are kept), a missing section becomes the payload, and every other section is unchanged |
| WizardConfig.UpdateIdempotent | react_version/src/context/ConfigContext.js:99-103 | applying the same section update twice equals applying it once |
| WizardConfig.UpdateCovering | react_version/src/context/ConfigContext.js:99-103 | an update whose payload carries every key of the old section installs the payload as the section |
| WizardConfig.SetFullReplaces | react_version/src/context/ConfigContext.js:104-105 | SET_FULL_CONFIG yields a copy of the payload's own properties, whatever the state was |
| WizardConfig.UnknownActionUnchanged | react_version/src/context/ConfigContext.js:106-107 | any other action type returns the state unchanged |
| WizardConfig.InitialSections | react_version/src/context/ConfigContext.js:5-92 | the initial state has exactly the six sections time_control, domain_setup, physics, dynamics, bdy_control and namelist_quilt |
| WizardConfig.InitialSpacingInMetres | react_version/src/context/ConfigContext.js:30-35 | the initial grid spacing is 30 km stored in metres, `dx_arr` = [30000] |
| GlobalConfig.Initializer | src/context/ConfigContext.js:119-127 | a non-empty stored string that parses gives the parsed value; an absent or empty value, a storage error or a parse failure gives the initial state |
| GlobalConfig.UpdateMergesSection | src/context/ConfigContext.js:95-102 | on an object state the named section becomes the old section overlaid by `data`, the stamp becomes `now`, and every other key is unchanged |
| GlobalConfig.UpdateAsKeyUpdates | src/context/ConfigContext.js:95-102 | the update on an object state is the section write followed by the stamp write |
| GlobalConfig.KeyUpdates | src/context/ConfigContext.js:95-102 | the two key writes change the section and the stamp and keep every other key |
| GlobalConfig.UpdateOfNullishThrows | src/context/ConfigContext.js:98 | reading a section of a null or undefined state throws |
| GlobalConfig.SetEntireStamps | src/context/ConfigContext.js:107 | SET_ENTIRE_CONFIG always stamps the result with `now`, whatever the action carries |
| GlobalConfig.SetEntireInstalls | src/context/ConfigContext.js:107 | a replace takes the new document's own keys, then the stamp |
| GlobalConfig.ResetIsBase | src/context/ConfigContext.js:108-112 | RESET_CONFIG yields `baseInitialState` with only `_lastUpdated` replaced, whatever the state was |
| GlobalConfig.ReduceDispatch | src/context/ConfigContext.js:91-116 | each handled action type selects its case, and any other type returns the state unchanged |
| GlobalConfig.UpdateFixpoint | src/context/ConfigContext.js:95-102 | the state after a section update is a fixed point of that same update at the same instant |
| GlobalConfig.UpdateIdempotent | src/context/ConfigContext.js:95-102 | applying the same section update twice at the same instant equals applying it once |
| GlobalConfig.UpdateWrapperMissesSection | src/context/ConfigContext.js:97-101 | `updateConfigSection(s, d)` as wired writes an "undefined" key and the stamp, and leaves every named section as it was |
| GlobalConfig.WrapperActionFields | src/context/ConfigContext.js:156-158 | the wrapper's action carries a type and a payload but neither `section` nor `data` |
| GlobalConfig.UpdateWrapperExample | src/context/ConfigContext.js:156-158 | concretely, switching time_control's data source through the wrapper leaves it as it was |
| GlobalConfig.LoadWrapperDropsConfig | src/context/ConfigContext.js:160-162 | `loadConfig(x)` as wired yields a state whose only key is `_lastUpdated` |
| GlobalConfig.IntendedUpdateMerges | src/context/ConfigContext.js:95-102 | with the fields the reducer reads, an update merges `data` into the named section and stamps the state |
| GlobalConfig.IntendedLoadInstalls | src/context/ConfigContext.js:105-107 | with the field the reducer reads, a load installs the loaded object plus the stamp |
| Helpers.FormatDateString | react_version/src/utils/helpers.js:6-19 | splitting throws a TypeError exactly when the string has no '_' |
| Helpers.ParseFirstThree | react_version/src/utils/helpers.js:8-9 | destructuring three pieces reads each of the first three with parseInt |
| Helpers.Pad2 | react_version/src/utils/helpers.js:27 | the padded text is all digits and reads back as the number |
| Helpers.Pad2Width | react_version/src/utils/helpers.js:27 | every number below 100 is printed with exactly two digits |
| Helpers.SplitThree | react_version/src/utils/helpers.js:8-9 | three digit groups joined by a non-digit separator split back into the three groups |
| Helpers.FormatOfDigitGroups | react_version/src/utils/helpers.js:6-19 | on digit groups in WRF layout, formatDateString reads each group with parseInt |
| Helpers.ReadPadded | react_version/src/utils/helpers.js:12-27 | parseInt reads back the digits of n, padded or not |
| Helpers.FormatOfWrfString | react_version/src/utils/helpers.js:6-30 | formatDateString of dateToWrfString's output returns the same six components |
| Helpers.WrfStringToDate | react_version/src/utils/helpers.js:37-50 | building the Date throws a TypeError exactly when the string has no '_' |
| Helpers.MakeTimeOfDateTime | react_version/src/utils/helpers.js:42-49 | `new Date(y, m - 1, d, h, mi, s)` of a valid date and time in years 100-9999 is that instant |
| Helpers.DateOfWrfString | react_version/src/utils/helpers.js:26-50 | reading back a printed date gives the same instant, for years 100-9999 |
| Helpers.TwoDigitYears | react_version/src/utils/helpers.js:42-49 | years 0-99 are read as 1900-1999 |
| Helpers.HoursBetweenIsFloor | react_version/src/utils/helpers.js:58-64 | the result is h exactly when h is the floor of the distance in hours |
| Helpers.HoursBetweenInvalid | react_version/src/utils/helpers.js:58-64 | an invalid Date on either side gives NaN, not an exception |
| Helpers.ReadDate | react_version/src/utils/helpers.js:84-85 | only a string containing '_' can be turned into a Date; anything else throws a TypeError |
| Helpers.ErrorsUpToReports | react_version/src/utils/helpers.js:71-121 | after n checks, a check has an error exactly when it is among them and fails, and its error is its message |
| Helpers.ErrorsReportFailures | react_version/src/utils/helpers.js:71-121 | the error object holds the message of every failing check and nothing else |
| Helpers.CheckDatesPresent | react_version/src/utils/helpers.js:75-81 | the first two checks record a missing start or end date |
| Helpers.CompareDates | react_version/src/utils/helpers.js:83-90 | with both dates present, a throw while building either Date is the error, and otherwise the result is whether start >= end |
| Helpers.CheckDateOrder | react_version/src/utils/helpers.js:83-90 | the date-range check records `date_range` when the dates are out of order and passes any throw on |
| Helpers.CheckDomain | react_version/src/utils/helpers.js:92-116 | a missing domain records `domain`; otherwise each domain field out of range records its own key |
| Helpers.CheckOutputDir | react_version/src/utils/helpers.js:118-121 | a missing output directory records `output_dir` |
| Helpers.ValidateConfig | react_version/src/utils/helpers.js:71-127 | a nullish config or a throwing date read raises a TypeError; otherwise errors are every failing check's message and `isValid` holds exactly when there are none |
| Helpers.ReadOfPrintedDate | react_version/src/utils/helpers.js:26-50 | a printed date is present and read as the instant it prints |
| Helpers.DateOrderReportedAsRange | react_version/src/utils/helpers.js:83-90 | two present dates read as instants x and y are out of order exactly when x >= y |
| Helpers.InvalidDateInOrder | react_version/src/utils/helpers.js:87 | a date that builds an invalid Date is never reported out of order |
| Helpers.OrderReportedOnlyAsRange | react_version/src/utils/helpers.js:75-90 | dates out of order are reported under `date_range` alone; `start_date` and `end_date` are reported exactly when that date is missing |
| Helpers.DomainFieldsReported | react_version/src/utils/helpers.js:96-116 | each domain field is reported exactly when the domain is present and that field is out of range |
| Helpers.GridPointsAtLeastThree | react_version/src/utils/helpers.js:97-103 | a grid dimension of n points is reported exactly when n < 3, so 3 is accepted |
| Helpers.SpacingPositive | react_version/src/utils/helpers.js:105-111 | a grid spacing of n is reported exactly when n <= 0 |
| Helpers.MaxDomRange | react_version/src/utils/helpers.js:113-115 | a max_dom of n is reported exactly when n lies outside 1-10, and a missing one never is |
| Helpers.MissingDomainReportsOnlyDomain | react_version/src/utils/helpers.js:93-96 | without a domain, only `domain` is reported among the domain checks |
| Helpers.KeysDistinct | react_version/src/utils/helpers.js:75-121 | each check reports under a key of its own |
| TimeForm.IsoTime | react_version/src/components/TimeForm.js:60-61 | a matching string is read as an instant exactly when its fields spell a real date and a time of day, where 24:00:00 is the midnight that ends the day; any other is an invalid Date |
| TimeForm.FormErrors | react_version/src/components/TimeForm.js:46-69 | each value that fails the pattern gets the format message on its own field, and both can be reported together; the order is checked only when both pass; a matching non-string throws on `.replace` |
| TimeForm.Form.constructor | react_version/src/components/TimeForm.js:18-25 | the form opens with the given default values, no errors and no submit in progress |
| TimeForm.Form.HandleChange | react_version/src/components/TimeForm.js:31-44 | only the named field changes, and only that field's error is cleared, and only when it was set |
| TimeForm.Form.ValidateForm | react_version/src/components/TimeForm.js:46-70 | the stored errors become the freshly built error map, and the answer is whether that map is empty |
| TimeForm.Form.HandleSubmit | react_version/src/components/TimeForm.js:72-88 | an invalid form calls nothing; a valid one passes the values unchanged to `onSubmit` and stores them as `timeConfig` |
| TimeForm.FieldsOfGroups | react_version/src/components/TimeForm.js:48 | six digit groups of widths 4, 2, 2, 2, 2, 2 in WRF layout match the pattern and spell their values |
| TimeForm.IsoTimeOfWrfString | react_version/src/components/TimeForm.js:48-61 | a date printed in WRF form with a four-digit year matches and reads back as that instant |
| TimeForm.OrderOfMatching | react_version/src/components/TimeForm.js:59-66 | for two matching strings the only possible error is the order error on `end_date` |
| TimeForm.OrderOnInstants | react_version/src/components/TimeForm.js:59-66 | two well-formed dates get the order error on `end_date` exactly when the end is not after the start |
| TimeForm.ValidPair | react_version/src/components/TimeForm.js:46-69 | a matching pair whose end is a later instant than its start, or where either does not read as an instant, has no errors |
| TimeForm.EndOfDayIsNextMidnight | react_version/src/components/TimeForm.js:60-61 | 24:00:00 on a real date is read, and is the same instant as 00:00:00 of the next day |
| TimeForm.PastEndOfDayInvalid | react_version/src/components/TimeForm.js:60-61 | hour 24 with minutes or seconds other than zero is an invalid Date |
| TimeForm.EndOfDayOrdered | react_version/src/components/TimeForm.js:59-66 | an end of 2024-06-01_24:00:00 against a start of 2024-06-02_00:00:00 is the same instant, so it gets the order error |
| TimeForm.DefaultStart | react_version/src/components/TimeForm.js:19 | the default start matches and spells 2024-06-01 00:00:00 |
| TimeForm.DefaultEnd | react_version/src/components/TimeForm.js:20 | the default end matches and spells 2024-06-02 00:00:00 |
| TimeForm.ImpossibleEnd | react_version/src/components/TimeForm.js:48 | "2024-13-01_00:00:00" matches the pattern although month 13 does not exist |
| TimeForm.DefaultValueStrings | react_version/src/components/TimeForm.js:18-22 | the default values are 2024-06-01_00:00:00 to 2024-06-02_00:00:00 |
| TimeForm.DefaultValuesValid | react_version/src/components/TimeForm.js:18-69 | the form's own default values pass validation |
| TimeForm.ImpossibleEndAccepted | react_version/src/components/TimeForm.js:59-66 | a well-formed end date that is not a calendar date gives an invalid Date, so no order error is raised |
| TimePage.TimeControlOf | react_version/src/pages/Time.js:14-19 | the built section has the submitted start and end as one-element lists and the submitted data source, and keeps every other time_control field |
| TimePage.SubmitWritesTimeControl | react_version/src/pages/Time.js:21 | a submit writes the time_control section and no other |
| TimePage.FormDefaults | react_version/src/pages/Time.js:34-38 | the defaults are element 0 of each date list or "", and the data source or "GFS", so the data source is never empty; reading through a missing section throws |
| TimePage.DefaultsAfterSubmit | react_version/src/pages/Time.js:14-38 | reopening the form after a submit of string dates and a non-empty data source shows exactly what was submitted |
| TimePage.MissingSectionThrows | react_version/src/pages/Time.js:35 | a store without a time_control section cannot seed the form |
| DomainForm.InputValue | react_version/src/components/DomainForm.js:36 | a number input is stored as the number parseFloat reads (or NaN), any other input as its raw string |
| DomainForm.Form.constructor | react_version/src/components/DomainForm.js:27-30 | the form opens with the given default values, no submit in progress and no success alert |
| DomainForm.Form.HandleChange | react_version/src/components/DomainForm.js:32-38 | only the named field changes, to the stored input value |
| DomainForm.Form.HandleFormSubmit | react_version/src/components/DomainForm.js:40-67 | the current values go to `onSubmit` unchanged, with no range check, when the page gives one; otherwise the success alert is shown |
| DomainForm.DefaultGrid | react_version/src/components/DomainForm.js:14-17 | the default grid sizes and spacings lie within their declared minimums (e_we and e_sn at least 3, dx and dy at least 0) (also lines 102, 121, 142, 162) |
| DomainForm.DefaultCoordinates | react_version/src/components/DomainForm.js:18-23 | the default coordinates and nest count lie within their declared ranges (latitudes in [-90, 90], longitudes in [-180, 180], max_dom in [1, 10]) (also lines 183-184, 204-205, 226-227, 247-248, 268-269, 288-289) |
| DomainForm.DefaultsInDeclaredBounds | react_version/src/components/DomainForm.js:12-25 | the default values satisfy every declared bound, and lambert is among the four projections (also lines 310-313) |
| DomainForm.SmallGridOutOfBounds | react_version/src/components/DomainForm.js:40-102 | a grid of 2 points violates the declared bounds, although submit still passes such values on |
| DomainPage.SubmittedFields | react_version/src/pages/Domain.js:32-46 | the form's scalars max_dom and map_proj are kept as they are; its numbers are parsed into one-element lists, spacings in metres; parent lists are kept or default to [0], [1], [1], [1] |
| DomainPage.DomainSetupOf | react_version/src/pages/Domain.js:30-47 | the section becomes the current one overlaid by the submitted fields; reading the parent lists of a missing section throws |
| DomainPage.NextGate | react_version/src/pages/Domain.js:15-27 | Next is enabled exactly when `e_we_arr[0]`, `dx_arr[0]` and `map_proj` are all truthy |
| DomainPage.SubmitInstalls | react_version/src/pages/Domain.js:49 | a submit replaces domain_setup by the built section and leaves every other section alone |
| DomainPage.KilometresRoundTrip | react_version/src/pages/Domain.js:36-73 | parseFloat and multiplying by 1000 on the way in, then dividing by 1000 on the way out, give the number back |
| DomainPage.SpacingRoundTrip | react_version/src/pages/Domain.js:36-74 | a spacing stored in metres reads back as the submitted km value |
| DomainPage.GridRoundTrip | react_version/src/pages/Domain.js:34-71 | a submitted grid size reads back from element 0 of its list |
| DomainPage.BuiltSection | react_version/src/pages/Domain.js:30-47 | the built section holds the parsed e_we, the spacings in metres and the submitted projection |
| DomainPage.FormDefaults | react_version/src/pages/Domain.js:66-83 | a missing domain_setup gives no defaults; otherwise every form field is present |
| DomainPage.DefaultsOfSection | react_version/src/pages/Domain.js:70-82 | the defaults are element 0 of e_we_arr, the spacings divided by 1000 (30 when absent), and `map_proj` or "lambert" |
| DomainPage.SectionDefaults | react_version/src/pages/Domain.js:71-81 | a section holding submitted numbers gives them back as defaults |
| DomainPage.DefaultsOfInstalled | react_version/src/pages/Domain.js:66-83 | the defaults of a store whose section holds submitted values are those values |
| DomainPage.DefaultsAfterSubmit | react_version/src/pages/Domain.js:29-83 | reopening the form after a submit shows the submitted grid size, the spacing back in km, and the projection |
| DomainPage.MetresTruthy | react_version/src/pages/Domain.js:20-36 | scaling by 1000 keeps a number non-zero exactly when it was non-zero |
| DomainPage.GateOfSection | react_version/src/pages/Domain.js:15-27 | on a section holding submitted values, Next is enabled exactly when e_we and dx parse to non-zero numbers and the projection is truthy |
| DomainPage.NextAfterSubmit | react_version/src/pages/Domain.js:15-49 | after a submit, Next is enabled exactly when e_we and dx parse to non-zero numbers and a projection is chosen |
| DomainPage.NoSectionNoDefaults | react_version/src/pages/Domain.js:68 | a missing domain_setup gives the form no defaults |
| PhysicsForm.SelectDefaults | react_version/src/components/PhysicsForm.js:66-161 | each select shows its field's value as text; reading a null or undefined field throws, so rendering needs all six fields present |
| PhysicsForm.OptionValues | react_version/src/components/PhysicsForm.js:73-77 | a field's options are the keys of its PHYSICS_OPTIONS table, and a field the registry lacks has none |
| PhysicsForm.Form.constructor | react_version/src/components/PhysicsForm.js:15-24 | the form opens with the given default values and no submit in progress |
| PhysicsForm.Form.HandleChange | react_version/src/components/PhysicsForm.js:32-37 | the named field becomes `parseInt(value)` and nothing else changes |
| PhysicsForm.ChangesKeepOtherKeys | react_version/src/components/PhysicsForm.js:32-37 | any sequence of select changes leaves every key that is not a select field as the seed had it |
| PhysicsForm.Form.HandleSubmit | react_version/src/components/PhysicsForm.js:39-50 | the values go to `onSubmit` unchanged when the page gives one, and submitting ends |
| PhysicsForm.IntPrintsAsKey | react_version/src/components/PhysicsForm.js:66-74 | an integer code prints as the key the registry stores it under |
| PhysicsForm.ChoiceRoundTrip | react_version/src/components/PhysicsForm.js:35-74 | choosing the option of code c stores c, and the select shows that same option again |
| PhysicsForm.OfferedChoiceStoresCode | react_version/src/components/PhysicsForm.js:35-77 | every option a select offers, once chosen, stores a code of that field's table |
| PhysicsForm.ChangeKeepsRendering | react_version/src/components/PhysicsForm.js:32-66 | a change never makes the form unrenderable, because parseInt never yields null or undefined |
| PhysicsForm.MissingFieldThrows | react_version/src/components/PhysicsForm.js:66-161 | values that lack a field the selects read cannot be rendered |
| PhysicsForm.DefaultsRender | react_version/src/components/PhysicsForm.js:15-22 | the default values render: every select has a value to show (also lines 66-161) |
| PhysicsForm.DefaultsAreRegistryDefaults | react_version/src/components/PhysicsForm.js:15-22 | the defaults are mp 6, ra_lw 1, ra_sw 1, sf_surface 2, bl_pbl 1 and cu 1, the registry's default physics |
| PhysicsForm.DefaultsOffered | react_version/src/components/PhysicsForm.js:15-77 | each default is a code its table offers |
| PhysicsPage.NextGate | react_version/src/pages/Physics.js:41-44 | for an array or string, Next is disabled exactly when `mp_physics_arr` is missing or its element 0 is falsy |
| PhysicsPage.LengthTestMatters | react_version/src/pages/Physics.js:41-44 | an object posing as the list shows that the length test is not redundant in general |
| PhysicsPage.SubmitWritesPhysics | react_version/src/pages/Physics.js:15-16 | submit writes each form field verbatim into the physics section, keeps the section's other fields, and leaves every other section alone |
| PhysicsPage.SubmitEndsLoading | react_version/src/pages/Physics.js:33-39 | after any submit the loading view is gone |
| PhysicsPage.SubmitKeepsGate | react_version/src/pages/Physics.js:15-44 | a submit whose values lack `mp_physics_arr` leaves the Next gate as it was |
| PhysicsPage.FormSubmitKeepsGate | react_version/src/pages/Physics.js:15-70 | the form is seeded with the stored physics section and its selects change only the six scalar fields, so a submit carries back the section's own `mp_physics_arr` and never changes whether Next is disabled |
| PhysicsPage.SubmitOfSameList | react_version/src/pages/Physics.js:15-44 | a submit that carries the stored `mp_physics_arr`, or none, leaves the Next gate as it was |
| PhysicsPage.ListSectionDoesNotRender | react_version/src/pages/Physics.js:66-69 | a section holding only `_arr` lists cannot seed the form's selects |
| PhysicsPage.InitialSection | react_version/src/context/ConfigContext.js:69-90 | the initial store holds the initial physics section |
| PhysicsPage.InitialList | react_version/src/context/ConfigContext.js:69-90 | the initial physics section has `mp_physics_arr` = [8] and no scalar `mp_physics` |
| PhysicsPage.InitialNextEnabled | react_version/src/pages/Physics.js:33-44 | a store holding the initial physics section starts with Next enabled |
| DynamicsForm.Iterate | react_version/src/components/DynamicsForm.js:25 | spreading succeeds exactly for an array or a string, and throws a TypeError otherwise |
| DynamicsForm.Entry | react_version/src/components/DynamicsForm.js:23-35 | a truthy list with a positive length is copied, anything else falls back; a non-empty fallback gives a non-empty list |
| DynamicsForm.CollectThrows | react_version/src/components/DynamicsForm.js:22-36 | collecting throws exactly when one of the entries throws |
| DynamicsForm.CollectKeys | react_version/src/components/DynamicsForm.js:22-36 | a successful collection holds one list under each field's key and nothing else |
| DynamicsForm.CollectEntries | react_version/src/components/DynamicsForm.js:22-36 | with distinct keys, each field's list in the collection is the entry built for it |
| DynamicsForm.InitializeFormValues | react_version/src/components/DynamicsForm.js:17-40 | the loop over the three fields returns exactly what the specification function gives, `{}` for a falsy seed |
| DynamicsForm.Processed | react_version/src/components/DynamicsForm.js:63-68 | a select's value is read with parseInt, and the checkbox's value is stored as it is |
| DynamicsForm.Form.constructor | react_version/src/components/DynamicsForm.js:46-48 | the form opens with what the initializer returned, no errors and no submit in progress |
| DynamicsForm.Form.Reseed | react_version/src/components/DynamicsForm.js:57-60 | a new seed re-initialises the values and clears the errors |
| DynamicsForm.Form.HandleChange | react_version/src/components/DynamicsForm.js:62-78 | the field becomes a one-element list, and only its error is cleared, and only when it was set |
| DynamicsForm.Form.ValidateForm | react_version/src/components/DynamicsForm.js:80-92 | there is an error on diff_opt_arr or km_opt_arr exactly when that list is missing or its element 0 is undefined, and the form is valid exactly when there is none |
| DynamicsForm.Form.HandleFormSubmit | react_version/src/components/DynamicsForm.js:94-105 | `onSubmit` receives the values only when they validate |
| DynamicsForm.InitialKeys | react_version/src/components/DynamicsForm.js:18-36 | a falsy seed gives `{}`; otherwise the form has exactly the three keys diff_opt_arr, km_opt_arr and non_hydrostatic_arr |
| DynamicsForm.InitialLists | react_version/src/components/DynamicsForm.js:22-36 | every list of a seeded form is an array with at least one element |
| DynamicsForm.InitialThrows | react_version/src/components/DynamicsForm.js:24-25 | initialising throws exactly when the seed holds, under one of the keys, an object with a positive length |
| DynamicsForm.FieldsFallBack | react_version/src/components/DynamicsForm.js:28-31 | the fallbacks are [true] for non_hydrostatic, and the registry's first code, [0] or [1], for diff_opt and km_opt |
| DynamicsForm.CopiesList | react_version/src/components/DynamicsForm.js:24-25 | a non-empty array in the seed is copied as it is |
| DynamicsForm.MissingFallsBack | react_version/src/components/DynamicsForm.js:26-35 | a missing list falls back |
| DynamicsForm.EntrySet | react_version/src/components/DynamicsForm.js:23-87 | a built list is set unless it copies a seed list whose element 0 is undefined |
| DynamicsForm.InitialValid | react_version/src/components/DynamicsForm.js:17-92 | a form seeded from lists whose element 0 is defined passes validation |
| DynamicsForm.InitialEntry | react_version/src/components/DynamicsForm.js:22-36 | the list under a field's key in a seeded form is the entry built for that field |
| DynamicsForm.UndefinedHeadInvalid | react_version/src/components/DynamicsForm.js:24-82 | a copied list that starts with undefined fails validation, though the initializer accepted it |
| DynamicsForm.ChangeSetsList | react_version/src/components/DynamicsForm.js:62-87 | any select choice sets that list, because parseInt never yields undefined |
| DynamicsForm.OptionChoiceValid | react_version/src/components/DynamicsForm.js:67-82 | choosing any code stores that code and keeps the form valid, 0 included |
| DynamicsPage.NextGate | react_version/src/pages/Dynamics.js:41-44 | for an array or string, Next is disabled exactly when the form's own test finds `diff_opt_arr` unset |
| DynamicsPage.ZeroCodeGates | react_version/src/pages/Dynamics.js:41-44 | a diffusion code 0 enables Next, whereas a microphysics code 0 keeps the Physics page's Next disabled |
| DynamicsPage.SubmitWritesDynamics | react_version/src/pages/Dynamics.js:15-16 | submit writes each form field verbatim into the dynamics section, keeps the section's other fields, and leaves every other section alone |
| DynamicsPage.SubmitEndsLoading | react_version/src/pages/Dynamics.js:33-39 | after any submit the loading view is gone |
| DynamicsPage.ValidSubmitEnablesNext | react_version/src/pages/Dynamics.js:15-44 | submitting values that pass the form's validation, with `diff_opt_arr` an array, enables Next |
| DynamicsPage.ReseedAfterSubmit | react_version/src/pages/Dynamics.js:15-69 | the form reseeded from the written section gets back the submitted lists |
| DynamicsPage.InitialNextEnabled | react_version/src/pages/Dynamics.js:33-44 | the store's initial dynamics section has `diff_opt_arr` = [1], so Next starts enabled |
| Options.Lookup | react_version/src/pages/Review.js:163-183 | looking a key up gives a label stored under that key, or undefined exactly when no entry has that key |
| Review.DisplayValue | react_version/src/pages/Review.js:11-15 | element `index` as a string when it is in range and neither null nor undefined, the fallback "未设置" otherwise |
| Review.BooleanDisplayValue | react_version/src/pages/Review.js:17-22 | 未设置 exactly when the element is missing; otherwise 开启 exactly when it is truthy, and 关闭 when it is not |
| Review.Label | react_version/src/pages/Review.js:163-183 | the result is a non-empty label the table holds under the displayed value, or the displayed value itself |
| Review.Spaced | react_version/src/pages/Review.js:164 | every underscore of the key becomes a space and every other character stays |
| Review.Upper | react_version/src/pages/Review.js:164 | a lower-case ASCII letter becomes its capital, and any other character is left alone |
| Review.ShownInArray | react_version/src/pages/Review.js:12 | for an array, an element is shown exactly when the index is in range and the element is neither null nor undefined |
| Review.CodeShowsLabel | react_version/src/pages/Review.js:162-163 | a stored code is displayed as its key, so its label is found in the table |
| Review.UnknownCodeShowsRaw | react_version/src/pages/Review.js:163-183 | a displayed value that is not a code of the table is shown as it is |
| Review.ProjectionNeedsList | react_version/src/pages/Review.js:110 | the projection row reads only `map_proj_arr`, so a section without it shows 未设置 whatever `map_proj` holds |
| Review.ProjectionNameNotShown | react_version/src/pages/Review.js:110 | projection names, as the domain form stores them, are not codes, so they also show 未设置 |
| Review.GatesImplyComplete | react_version/src/pages/Review.js:51-59 | a store that the Domain, Physics and Dynamics gates let through, with a start date, is complete |
| Review.ZeroMicrophysicsAccepted | react_version/src/pages/Review.js:57 | Review accepts a microphysics code 0, which the Physics page's gate refuses |
| Review.PhysicsRowsIgnoreForm | react_version/src/pages/Review.js:160-163 | a physics submit that carries a row's `_arr` list as stored, or not at all, leaves that row of Review as it was |
| Review.PhysicsRowsAfterFormSubmit | react_version/src/pages/Review.js:160-163 | what the physics form submits, seeded with the stored section and changed only on its selects, leaves every physics row of Review as it was |
| Review.TimestampOnlyNotLoaded | react_version/src/pages/Review.js:40 | a store whose only key is a truthy `_lastUpdated` shows the not-loaded view |
| Review.ReadableKeyWords | react_version/src/pages/Review.js:164 | in the readable key, underscores become spaces and a word character is upper-cased exactly when it starts the key or follows a non-word character or an underscore |
| Review.CapitalizeWordStarts | react_version/src/pages/Review.js:164 | capitalising upper-cases exactly the word characters at a word boundary |
| Output.Validate | react_version/src/pages/Output.js:52-70 | a nullish config throws; otherwise the result is null exactly when the time, domain, physics and dynamics checks all pass |
| Output.Request | react_version/src/pages/Output.js:90-93 | the request is the saved config with `output_dir` replaced by the entered directory or "" |
| Output.DownloadLink | react_version/src/pages/Output.js:133-136 | a download opens exactly the truthy link the downloads hold for that file type |
| Output.Page.constructor | react_version/src/pages/Output.js:17-34 | the page mounts loading, with nothing generated, empty results and links, and the default config |
| Output.Page.LoadSaved | react_version/src/pages/Output.js:36-50 | a missing or unparsable saved `wrf_config` sets `configError` and keeps the default config; loading ends whatever happens |
| Output.Page.SetOutputDir | react_version/src/pages/Output.js:19 | only the entered directory changes |
| Output.Page.GenerateFiles | react_version/src/pages/Output.js:72-131 | a failed validation shows its message and changes nothing; otherwise the request is sent and its answer recorded |
| Output.Page.Record | react_version/src/pages/Output.js:98-130 | only a success marks the files generated and takes the directory, messages (default []), links (default {}) and contents; a failure leaves `isGenerated` false |
| Output.ValidateIsFirstFailure | react_version/src/pages/Output.js:52-70 | validation reports exactly the first failing check in the order time, domain, physics, dynamics |
| Output.TimeFirst | react_version/src/pages/Output.js:53-55 | a config without a start date fails on time, whatever its other sections hold |
| Output.ZeroCodes | react_version/src/pages/Output.js:61-65 | a microphysics code 0 fails the physics check, while a diffusion code 0 passes the dynamics check |
| Output.DefaultConfigValid | react_version/src/pages/Output.js:33-70 | `DEFAULT_CONFIG`, with the clock's two dates non-empty, passes validation |
| Output.SectionsComplete | react_version/src/pages/Output.js:52-70 | a config whose checked fields are set passes validation |
| Output.StoreShapeFailsTime | react_version/src/pages/Output.js:53-55 | a store shaped like the React steps' store has no `start_date`, so it always fails on time |
| Output.NothingSavedDisables | react_version/src/pages/Output.js:46-48 | without a saved entry the button stays disabled, even though the default config is complete (also lines 203) |
| Output.LoadOutcomes | react_version/src/pages/Output.js:39-45 | a saved entry that parses replaces the config and keeps the error state; one that does not keeps the config and reports the failure |
| Output.EnabledSends | react_version/src/pages/Output.js:74-96 | an enabled button means the handler passes validation and sends the request (also lines 203) |
| Output.RequestOverridesDirectory | react_version/src/pages/Output.js:90-93 | the request keeps every config field except `output_dir`, which becomes the entered directory |
| Output.NoLinksNoDownloads | react_version/src/pages/Output.js:102-136 | after a successful answer without download links, no download button opens anything |
| Output.InitialDownloadsEmpty | react_version/src/pages/Output.js:25-30 | on the initial downloads, every download button opens nothing (also lines 133-136) |
| PyValue.Get | backend/app.py:15-33 | `get` on a dict gives the stored value for a present key and the default for a missing one; on anything else it raises AttributeError |
| PyValue.Subscript | web_version/generator_module.py:889-893 | `obj[key]` succeeds exactly on a dict holding the key, and then gives the stored value |
| PyValue.Str | backend/app.py:47-69 | an f-string field inserts a str as it is and an int in decimal; a list or dict is reported as outside the model |
| PyValue.Repeat | backend/app.py:140 | a sequence times k has k times its length |
| PyValue.Times | backend/app.py:140-147 | `v * k` raises TypeError exactly for None and for a dict |
| PyValue.AsInteger | web_version/generator_module.py:881-895 | an int is its own dict key; a str, None, list or dict is no integer key |
| PyDatetime.Strptime | backend/app.py:105-106 | a parsed text names a valid date and time, with a year of at least 1, whether the day is written with digits or as a space and one digit |
| PyDatetime.StrptimeValue | backend/app.py:105-106 | parsing raises TypeError exactly when the value is not a str, and otherwise gives the result of parsing its text |
| PyDatetime.ReadInterleaved | backend/app.py:105-106 | reading the text of digit groups interleaved with the format's separators gives the groups back |
| PyDatetime.InterleaveRead | backend/app.py:105-106 | interleaving the groups read from a text gives the text back |
| PyDatetime.GroupsAreDigits | backend/app.py:105-106 | every group read is a non-empty run of digits |
| PyDatetime.StrptimeOfGroups | backend/app.py:105-106 | six digit groups of the allowed widths, joined by the format's separators, parse to the date and time they name |
| PyDatetime.StrptimeRoundTrip | backend/app.py:105-106 | parsing the WRF text of a date and time with a four-digit year gives that date and time back |
| PyDatetime.SingleDigitFields | backend/app.py:105-106 | fields of one digit are read too, so the parser is laxer than the React forms |
| PyDatetime.SpacedDay | backend/app.py:105-106 | a text read with a space-padded day names a valid date and time, with a year of at least 1 |
| PyDatetime.SpacedDayOfGroups | backend/app.py:105-106 | a space before a one-digit day other than 0 is read as that day: the text parses to what its groups without the space name |
| PyDatetime.SpacePaddedDay | backend/app.py:105-106 | a date whose day is below 10, written with a space in place of the day's leading zero, parses to that date |
| Namelist.EntryLines | backend/app.py:46-50 | one line per entry, in order, each the entry's own line |
| Namelist.GroupLines | backend/app.py:45-52 | a group's lines are its header, one line per entry and the closing slash |
| Namelist.HeadersAppend | backend/app.py:45-88 | the headers a reader finds in two runs of lines are those of the first run followed by those of the second |
| Namelist.ClosersAppend | backend/app.py:45-88 | the closing slashes of two runs of lines add up |
| Namelist.EntryLinesPlain | backend/app.py:46-50 | entry lines open with a space, so none opens or closes a group |
| Namelist.GroupShape | backend/app.py:45-52 | a group has exactly one header, its own name, and exactly one closing slash |
| Namelist.GroupsInOrder | backend/app.py:45-88 | the groups of a file are opened in the given order, each by its own name, with one closing slash per group |
| Namelist.ReadUnlines | backend/app.py:45-88 | lines without newlines are read back unchanged from their text |
| Namelist.DocLinesFlat | backend/app.py:45-88 | a file's lines hold no newline when its names, keys, values and comments hold none |
| Namelist.TextLines | backend/app.py:45-88 | reading the lines of a file's text gives back the groups' lines |
| Namelist.TextGroupsInOrder | backend/app.py:45-88 | a reader of the text finds the group names in order and one closing slash per group |
| BackendApp.SingleParam | backend/app.py:13-18 | raises AttributeError exactly when the section is not a dict |
| BackendApp.SingleParamUnwraps | backend/app.py:16-17 | a value stored as a one-element list is read back as that value |
| BackendApp.SingleParamDefaults | backend/app.py:15-18 | a missing key, None and an empty list give the default, while 0 and False are kept |
| BackendApp.FormatLogical | backend/app.py:22-23 | a bool becomes `.true.` exactly when it is True, and `.false.` otherwise |
| BackendApp.FormatQuotes | backend/app.py:24-25 | a str without a leading quote is wrapped in single quotes, with its text unchanged between them |
| BackendApp.FormatKeepsOthers | backend/app.py:26 | numbers, None, lists and dicts pass through unchanged |
| BackendApp.FormatStringIdempotent | backend/app.py:24-26 | formatting a str twice is the same as formatting it once |
| BackendApp.FormatBoolNotIdempotent | backend/app.py:22-26 | formatting a bool twice quotes the logical, so it is not idempotent |
| BackendApp.FieldEntry | backend/app.py:46-69 | a field renders to a line exactly when its value renders, with the field's key, text and comment, and otherwise raises the value's error |
| BackendApp.Collect | backend/app.py:45-52 | a successful build holds one line per field |
| BackendApp.GroupOf | backend/app.py:45-52 | a built group carries its name and the lines the build collected |
| BackendApp.CollectOk | backend/app.py:45-52 | the build succeeds exactly when every line renders, and then holds every line in order |
| BackendApp.CollectFirstError | backend/app.py:45-52 | when lines raise, the build raises the error of the first one |
| BackendApp.GroupFields | backend/app.py:54-74 | a table of fields renders exactly when every field does, and each line then carries its field's key, text and comment in table order |
| BackendApp.ShareGroup | backend/app.py:42-52 | a built share group is named "share" |
| BackendApp.TimeControlGroup | backend/app.py:121-151 | a built time-control group is named "time_control" |
| BackendApp.LaterGroups | backend/app.py:153-204 | a successful build gives five groups named domains, physics, dynamics, bdy_control and namelist_quilt, in that order |
| BackendApp.RunDates | backend/app.py:104-109 | a successful result holds two valid dates and times |
| BackendApp.NamedInOrder | backend/app.py:45-88 | groups named as listed are written under those names, in order, with one closing slash each |
| BackendApp.WpsGroupOrder | backend/app.py:45-86 | namelist.wps holds share, geogrid, ungrib and metgrid in that order, with four closing slashes |
| BackendApp.InputGroupOrder | backend/app.py:121-204 | namelist.input holds time_control, domains, physics, dynamics, bdy_control and namelist_quilt in that order, with six closing slashes |
| BackendApp.NonObjectBody | backend/app.py:32-93 | a request body that is not a JSON object raises AttributeError in both generators |
| BackendApp.RunLengthSplits | backend/app.py:111-113 | run_hours lies in [0, 24), and days and hours account for the run to within an hour, also for a run that ends before it starts |
| BackendApp.FallbackRun | backend/app.py:107-113 | the fallback run is 0 days and 3 hours |
| BackendApp.BothDatesReset | backend/app.py:104-109 | when only the end raises ValueError, a start that parsed is reset as well |
| BackendApp.NonStringDate | backend/app.py:104-107 | a date that is not a str raises TypeError, which the fallback does not catch |
| BackendApp.HistoryInMinutes | backend/app.py:139-140 | with unit 'h', an integer number of hours is written as minutes |
| BackendApp.HistoryOtherUnit | backend/app.py:142-143 | with another unit, the value is written as it is and the unit goes in the comment |
| BackendApp.HistoryStringRepeats | backend/app.py:140 | a number of hours stored as a str is repeated sixty times, not multiplied |
| BackendApp.RestartDefault | backend/app.py:147 | without restart_interval_h the restart interval is 360 minutes |
| BackendApp.ZeroFloatText | backend/app.py:65-69 | the float default 0.0 prints as "0.0" |
| BackendApp.RefLatIgnoresList | backend/app.py:65 | the ref_lat line reads the scalar key, so a domain section holding only `ref_lat_arr` gets 0.0 |
| BackendApp.GridIdMirrorsParentId | backend/app.py:161-162 | grid_id and parent_id read the same list, so they render together and show the same stored value |
| BackendApp.GridIdZeroFromStore | backend/app.py:161 | as written, the store's initial parent_id list [0] makes the outermost domain's grid_id 0 |
| BackendApp.IntendedGridIdIsOne | backend/app.py:161 | as intended, the outermost domain's grid_id is 1 for every domain section |
| BackendApp.DomainsDifferInGridIdOnly | backend/app.py:153-169 | the intended domains group differs from the written one only in the grid_id line |
| Generator.ProjName | web_version/generator_module.py:881-895 | looking a code up raises TypeError exactly for a list or dict, and otherwise gives one of lambert, polar, mercator and lat-lon |
| Generator.ProjectionTable | web_version/generator_module.py:881-895 | codes 1, 2, 3 and 6 name their projections; any other code, the text "2" among them, gives lambert; True counts as 1 and 2.0 as 2 |
| Generator.TopLevelProjectionWins | web_version/generator_module.py:888-889 | a top-level projection is used even when the domain holds one too |
| Generator.DomainProjectionUsed | web_version/generator_module.py:890-891 | without a top-level projection, the domain's projection is used |
| Generator.AbsentProjectionIsLambert | web_version/generator_module.py:892-895 | with no projection anywhere, the map is lambert |
| Generator.ScalarDomainRaises | web_version/generator_module.py:890 | a domain that is None or a number cannot be searched, so the lookup raises TypeError |
| Generator.IntervalSeconds | web_version/generator_module.py:105 | the interval is 3600 exactly for ERA5, and 10800 for any other source (also lines 252) |
| Generator.HoursTruncate | web_version/generator_module.py:185 | the whole hours of a run truncate toward zero, so they never lie further from zero than the run |
| Generator.RunLengthSplits | web_version/generator_module.py:185-205 | run_days and run_hours split the whole hours into days and hours of a day, with run_hours in [0, 24) |
| Generator.AgreesWithBackend | web_version/generator_module.py:185-205 | for a run that does not end before it starts, this generator and the Flask back end write the same days and hours |
| Generator.NegativeRunDiffers | web_version/generator_module.py:185-205 | half an hour before the start gives 0 days 0 hours here, but -1 days 23 hours in the back end |
| Generator.FindSep | web_version/generator_module.py:97 | a found separator position is followed by ", " inside the text |
| Generator.ReadJoin | web_version/generator_module.py:97 | a list line reads back as its items when none of them holds a comma |
| Generator.PerDomainRepeats | web_version/generator_module.py:96-101 | with nests, a per-domain value is written exactly max_dom times, and otherwise once |
| Generator.InputDateListRepeats | web_version/generator_module.py:213-227 | with nests, a number in the date lists of namelist.input repeats max_dom times |
| Generator.WpsDatesRepeat | web_version/generator_module.py:83-101 | the start_date list of namelist.wps holds the quoted date once per domain |
| Generator.NormalizedKeepsWrfText | web_version/generator_module.py:83-88 | a date already in WRF form comes back unchanged from parsing and reprinting it |
| Generator.NestIds | web_version/generator_module.py:114 | with max_dom domains, ids count from 1, the outermost domain is its own parent, and every other domain's parent is the domain before it (also lines 314, 318) |
| Generator.NestIdLines | web_version/generator_module.py:314-319 | the parent_id and grid_id lines read back as those lists |
| Generator.GwdOptOuterOnly | web_version/generator_module.py:413 | gravity-wave drag is on for the outermost domain and off for every nest |
| Generator.StrItems | web_version/generator_module.py:118-127 | a written slice has max_dom items, or fewer when the list is shorter |
| Generator.StrItemsOfInts | web_version/generator_module.py:118-127 | a slice of integers is written as their decimal texts, in order |
| Generator.MetresOfInt | web_version/generator_module.py:153-154 | dx of an integer kilometre value is written as that many metres (also lines 308-309) |
| Generator.MetresOfOthers | web_version/generator_module.py:153-154 | dx given as text is the text repeated a thousand times, and a missing dx raises TypeError (also lines 308-309) |
| Generator.GfsSlots | web_version/generator_module.py:510-520 | the slots the loop fetches as written are real cycles inside [start, end], each once, in increasing time |
| Generator.IntendedGfsSlots | web_version/generator_module.py:510-520 | the slots the loop is meant to fetch are real cycles inside [start, end], each once, in increasing time |
| Generator.DayLines | web_version/generator_module.py:514-518 | the inner loop writes the fetch lines of each of the hours 00, 06, 12 and 18 whose time lies in [start, end] |
| Generator.GfsScript | web_version/generator_module.py:501-520 | the Unix GFS script is its header followed by the fetch lines of exactly the slots the loop visits; stepping the day past 9999-12-31 raises OverflowError, exactly when the loop reaches that day |
| Generator.NoOverflowBeforeLastDay | web_version/generator_module.py:510-520 | a run that ends before 9999-12-31 never steps the day past it |
| Generator.CyclesStep | web_version/generator_module.py:514-518 | one more cycle hour adds its fetch lines exactly when its time lies in [start, end] |
| Generator.DayTextOfSlots | web_version/generator_module.py:514-518 | the text of a day is the fetch lines of that day's slots |
| Generator.VisitTextOfSlots | web_version/generator_module.py:510-520 | the text of the outer loop is the fetch lines of its slots |
| Generator.SlotsTextAppend | web_version/generator_module.py:510-520 | the text of two runs of slots is the first run's text followed by the second's |
| Generator.CyclesShape | web_version/generator_module.py:514-515 | a day's slots are its cycle hours whose time lies in the window, in increasing hour |
| Generator.CyclesComplete | web_version/generator_module.py:514-515 | every cycle hour of the day whose time lies in the window is among that day's slots |
| Generator.DaySlotsShape | web_version/generator_module.py:514-515 | a day's slots are sound and ascending, and all lie on that day |
| Generator.VisitShape | web_version/generator_module.py:510-520 | the loop's slots are real cycles inside the window, on days from the first on, in increasing time |
| Generator.IntendedGfsComplete | web_version/generator_module.py:510-520 | the intended loop fetches every cycle, of every day from the start's to the end's, that lies in [start, end] |
| Generator.GfsSlotsPrefix | web_version/generator_module.py:510-520 | the loop as written fetches a leading part of what it is meant to fetch |
| Generator.GfsSlotsCompleteWhenEndLater | web_version/generator_module.py:510-520 | when the run ends at a time of day no earlier than it starts, the loop as written misses nothing |
| Generator.GfsMissesLastMorning | web_version/generator_module.py:511-515 | a run from 2024-01-01 12:00 to 2024-01-02 06:00 misses the 00 UTC cycle of 2 January, which lies inside the run |
| Generator.WrfGenerator.constructor | web_version/generator_module.py:37-44 | for a configuration whose output_dir the check accepts, that output_dir becomes the directory settled on |
| Generator.OutputDir | web_version/generator_module.py:37-44 | the check raises AttributeError exactly when output_dir is truthy and not a str |
| Generator.BlankOutputDirDefaults | web_version/generator_module.py:38-39 | a missing, empty or blank output_dir becomes the default directory |
| Generator.OutputDirPaths | web_version/generator_module.py:41-43 | an absolute output_dir is kept, and a relative one is replaced by its absolute form |
| Generator.OutputDirSettles | web_version/generator_module.py:37-44 | with absolute defaults, the directory settled on is absolute and settles on itself |
| LegacyForm.ParseFormValue | web_version/static/js/script.js:374-384 | a number input gives a number or NaN; any other input gives a boolean exactly for the texts "true" and "false", true exactly for "true", and otherwise its own text |
| LegacyForm.ParsedTextRoundTrip | web_version/static/js/script.js:377-383 | the value of an input that is not a number input prints back as its own text |
| LegacyForm.ParsedNumberRoundTrip | web_version/static/js/script.js:375-376 | a number input holding a number's own text yields that number |
| LegacyForm.ParsedIsDefined | web_version/static/js/script.js:374-384 | an input's parsed value is never undefined |
| LegacyForm.Put | web_version/static/js/script.js:264-269 | storing into an object leaves an object |
| LegacyForm.SetPath | web_version/static/js/script.js:262-269 | a write below an object that does not throw leaves an object |
| LegacyForm.SaveField | web_version/static/js/script.js:254-270 | the loop writes the input's value at its dotted name, creating `{}` for each missing container, or throws as the write of that path does |
| LegacyForm.FreshWritable | web_version/static/js/script.js:264-266 | below a fresh `{}`, every path is writable |
| LegacyForm.ReadAfterWrite | web_version/static/js/script.js:202-269 | a write along a writable path succeeds, and reading the path back, both as written and as intended, gives the value written |
| LegacyForm.FreshNeverThrows | web_version/static/js/script.js:262-269 | a write into a fresh `{}` never throws |
| LegacyForm.ThrowCreatesNothing | web_version/static/js/script.js:262-269 | a write that throws has created no container before throwing, so the form data is left as it was |
| LegacyForm.WriteOutcomeIgnoresValue | web_version/static/js/script.js:262-269 | whether a write throws does not depend on the value written |
| LegacyForm.SavedInputReadsBack | web_version/static/js/script.js:202-273 | after an input whose path is writable is saved, getNestedValue of its name gives the parsed value |
| LegacyForm.LookupMiss | web_version/static/js/script.js:202-205 | in the intended lookup, a miss anywhere along the path reads as "Not set" |
| LegacyForm.ReduceAgrees | web_version/static/js/script.js:202-205 | where the path resolves, the reduce as written and the intended lookup agree |
| LegacyForm.PlaceholderLengthLeaks | web_version/static/js/script.js:202-205 | as written, on an empty form the path "a.length" gives 7, the length of "Not set", while the intended lookup gives "Not set" |
| LegacyWizard.SaveAllPrefix | web_version/static/js/script.js:252-272 | a save pass over one more control is the pass over the earlier ones followed by that control's save |
| LegacyWizard.SaveFormData | web_version/static/js/script.js:249-273 | the loop over the controls gives the save pass over all of them in document order |
| LegacyWizard.SaveAllAfterThrow | web_version/static/js/script.js:252-272 | once a control has thrown, the controls after it are not saved |
| LegacyWizard.Ints | web_version/static/js/script.js:295-304 | an array of the given integers, in order |
| LegacyWizard.FillProp | web_version/static/js/script.js:294-296 | a check changes at most its own key, and only when that key is falsy in an object |
| LegacyWizard.BackfillSettings | web_version/static/js/script.js:294-305 | every nest setting that was truthy keeps its value, every other one gets its default, and every other setting is unchanged |
| LegacyWizard.FillTruthy | web_version/static/js/script.js:294-296 | checking a key that is already truthy changes nothing |
| LegacyWizard.BackfillIdempotent | web_version/static/js/script.js:294-305 | filling in the defaults twice gives what filling them in once did |
| LegacyWizard.BackfillOfScalar | web_version/static/js/script.js:294-305 | a domain section that is not an object is left as it is |
| LegacyWizard.MarkedHasOneActive | web_version/static/js/script.js:86-95 | with numbered items, marking a step in range makes exactly that step's item active and exactly the earlier ones completed |
| LegacyWizard.ActiveStep | web_version/static/js/script.js:227 | none exactly when no item is active; otherwise the step of the first active item |
| LegacyWizard.Wizard.constructor | web_version/static/js/script.js:16-21 | the page loads on step 1 with the form data's four sections empty |
| LegacyWizard.Wizard.GoToStep | web_version/static/js/script.js:75-125 | the move happens exactly when the target is not later than the current step or the current step validates; a refused move changes nothing; a move marks the indicators for the target and saves the form, a second time on arriving at Review unless the first save threw |
| LegacyWizard.Wizard.ClickIndicator | web_version/static/js/script.js:224-235 | a click moves exactly to an earlier step, or to the next one when the current step validates, and then the form data and the throw are those of the arrival's saves; otherwise nothing changes and nothing throws |
| LegacyWizard.Wizard.Generate | web_version/static/js/script.js:276-305 | the click stops, changing nothing, exactly when one of steps 1 to 4 does not validate; otherwise the form is saved, the nest defaults are filled in, and the result is posted or the throw is reported |
| Sidebar.WizardRouteCases | react_version/src/components/Sidebar.js:56-62 | a route belongs to the wizard exactly when it is "/" or starts with one of the six page prefixes |
| Sidebar.ConfigNotWizard | react_version/src/components/Sidebar.js:56-63 | the configuration item's own route "/wrf-config" is not a wizard route |
| Sidebar.ActiveMainMenu | react_version/src/components/Sidebar.js:54-66 | the result is "/wrf-config" exactly for a wizard route or "/wrf-config" itself, and the route unchanged otherwise |
| Sidebar.ActiveMainMenuIdempotent | react_version/src/components/Sidebar.js:54-66 | classifying the result again changes nothing |
| Sidebar.TimelineIsWizard | react_version/src/components/Sidebar.js:57 | the match is on prefixes, so "/timeline" highlights the configuration item |
| Sidebar.WizardPagesSelectConfig | react_version/src/components/Sidebar.js:22-66 | every wizard page keeps the configuration item highlighted |
| Sidebar.Render | react_version/src/components/Sidebar.js:73-115 | one view per top-level item |
| Sidebar.DistinctHrefs | react_version/src/components/Sidebar.js:12-47 | the top-level hrefs are pairwise distinct |
| Sidebar.AtMostOneActive | react_version/src/components/Sidebar.js:75 | at most one top-level item is highlighted |
| Sidebar.SubmenuOpen | react_version/src/components/Sidebar.js:89-106 | a submenu is open exactly for the configuration item, on a wizard route or its own route; it lists the wizard pages with exactly the current one highlighted |
| LingxiApi.ToLowerCase | react_version/src/api/lingxiApi.js:27 | same length, each character lowered, and no capital letter left |
| LingxiApi.LowerIdempotent | react_version/src/api/lingxiApi.js:27 | lowering twice is lowering once |
| LingxiApi.LowerConcat | react_version/src/api/lingxiApi.js:27 | lowering distributes over concatenation |
| LingxiApi.MentionsOfThree | react_version/src/api/lingxiApi.js:29-35 | mentioning a group of three keywords is including one of them |
| LingxiApi.TopicOf | react_version/src/api/lingxiApi.js:26-35 | the topic is that of the first keyword group the lowered message mentions, in the order WRF, wind, economics, and the default otherwise |
| LingxiApi.SendMessageToLingxi | react_version/src/api/lingxiApi.js:10-41 | an assistant message carrying the reply of the message's topic, whatever the history |
| LingxiApi.CaseInsensitive | react_version/src/api/lingxiApi.js:27 | a message and its lower-cased form get the same topic |
| LingxiApi.IncludesInfix | react_version/src/api/lingxiApi.js:29-35 | a text includes every word written inside it |
| LingxiApi.KeywordSurvivesLowering | react_version/src/api/lingxiApi.js:27-35 | a message holding a keyword still holds it once lowered |
| LingxiApi.WrfWordWins | react_version/src/api/lingxiApi.js:29-30 | a message that mentions wrf, 模型 or 参数 anywhere, in any case, gets the WRF reply |
| LingxiApi.CapitalWrfMatches | react_version/src/api/lingxiApi.js:27-29 | "WRF" in capitals gets the WRF reply |
| LingxiApi.WindWordWins | react_version/src/api/lingxiApi.js:31-32 | a wind word decides the reply when no WRF word is there |
| LingxiApi.EconomicsWordWins | react_version/src/api/lingxiApi.js:33-34 | an economics word decides the reply when no WRF or wind word is there |
| LingxiApi.RepliesDistinct | react_version/src/api/lingxiApi.js:26-36 | the four replies differ, so the reply tells which topic was chosen |
| LingxiAssistant.Transcript | react_version/src/pages/LingxiAssistant.js:12-29 | the opening conversation holds the opening texts in order and alternates between user and assistant, starting with the user |
| LingxiAssistant.LastSix | react_version/src/pages/LingxiAssistant.js:65 | the context holds six messages, or all of them when there are fewer |
| LingxiAssistant.LastSixIsSuffix | react_version/src/pages/LingxiAssistant.js:65 | the context is the tail of the conversation |
| LingxiAssistant.AlternatesPush | react_version/src/pages/LingxiAssistant.js:54-76 | a message by the party whose turn it is keeps the conversation alternating |
| LingxiAssistant.AlternatesSuffix | react_version/src/pages/LingxiAssistant.js:65 | dropping an even number of leading messages keeps the conversation alternating |
| LingxiAssistant.ContextIsWholeExchanges | react_version/src/pages/LingxiAssistant.js:65 | the context of a settled conversation alternates, opens with a user message and ends with an assistant one |
| LingxiAssistant.Answer | react_version/src/pages/LingxiAssistant.js:66-76 | the settled message is the assistant's: the apology when the request failed, the reply of the message's topic otherwise |
| LingxiAssistant.Chat.constructor | react_version/src/pages/LingxiAssistant.js:12-34 | the page opens with the opening transcript, an empty box and nothing in flight |
| LingxiAssistant.Chat.Edit | react_version/src/pages/LingxiAssistant.js:167-172 | typing replaces the box's text unless a request is in flight; nothing else changes |
| LingxiAssistant.Chat.HandleSendMessage | react_version/src/pages/LingxiAssistant.js:51-81 | a request starts exactly when the trimmed box is non-empty and nothing is in flight; it appends the user's message, clears the box and carries the text with the last six earlier messages; otherwise nothing changes |
| LingxiAssistant.Chat.Complete | react_version/src/pages/LingxiAssistant.js:69-79 | settling appends the answer, or the apology on failure, and ends loading |
| LingxiAssistant.Chat.HandleKeyDown | react_version/src/pages/LingxiAssistant.js:84-89 | Enter without Shift is kept from the box and sends as the send button does; any other key changes nothing |
| JsValue.Merge | src/context/ConfigContext.js:95-101 | the spread holds every key of either object, with the value from the second wherever it has the key and from the first elsewhere |
| JsValue.MergeIdempotent | src/context/ConfigContext.js:97-100 | spreading the same payload a second time changes nothing more |
| JsValue.MergeSingleton | react_version/src/components/DynamicsForm.js:70-73 | spreading a one-key object literal is a single key update |
| JsValue.MergeIntoEmpty | src/context/ConfigContext.js:97-100 | spreading into an empty section copies the payload |
| JsValue.MergeCovered | src/context/ConfigContext.js:97-100 | a payload that covers every key of the section replaces the section |
| JsValue.MergeEmpty | src/context/ConfigContext.js:97-100 | spreading an empty payload adds nothing |
| JsValue.Split | react_version/src/utils/helpers.js:7-9 | `split` gives at least one part, and exactly one when the separator does not occur |
| JsValue.ParseFloat | react_version/src/components/DomainForm.js:36 | parseFloat gives a number or NaN |
| JsValue.ParseFloatOfNumber | react_version/src/pages/Domain.js:34-37 | parseFloat reads every number back from its own string form |
| JsValue.ParseInt | react_version/src/utils/helpers.js:12-17 | parseInt with no radix gives an integral number or NaN |
| JsValue.ParseIntOfDigits | react_version/src/utils/helpers.js:12-17 | parseInt reads a digit string as its decimal value, leading zeros included |
| JsValue.ComparisonsOfReals | react_version/src/utils/helpers.js:71-127 | `<`, `>` and `<=` against an integer compare the number the value converts to, and are false for NaN |
| JsValue.ParseFloatExponent | react_version/src/components/DomainForm.js:36 | parseFloat reads an exponent part after a number's text and scales the number by that power of ten |
| JsValue.ParseFloatExample | react_version/src/components/DomainForm.js:36 | parseFloat reads "1e3" as 1000 |
| JsValue.StringToNumberExample | react_version/src/utils/helpers.js:71-127 | the number conversion reads "1e3" as 1000 |
| JsValue.ParseIntHex | react_version/src/utils/helpers.js:12-17 | parseInt with no radix reads the hexadecimal digits after a `0x` prefix |
| JsValue.StringToNumberRadix | react_version/src/utils/helpers.js:71-127 | the number conversion reads a whole `0x`, `0o` or `0b` literal in its base |
| Decimals.ScaleUpIsMul | react_version/src/components/DomainForm.js:36 | scaling by a non-negative exponent k is the exact product by 10^k |
| Decimals.ScaleRoundTrip | react_version/src/components/DomainForm.js:36 | scaling by 10^j and then by 10^-j gives the number back, so a negative exponent is the exact quotient |
| Decimals.ScanNumberExponent | react_version/src/components/DomainForm.js:36 | a literal scanned to its end and followed by an exponent part scans to the literal's number scaled by that exponent |
| Decimals.DecimalRadix | react_version/src/utils/helpers.js:12-17 | read in base 10, a digit string has its decimal value |
| JsValue.PropOfSpread | src/context/ConfigContext.js:95-101 | reading a property other than `length` reads what spreading the value copies |
| JsValue.SpreadOfScalar | src/context/ConfigContext.js:97-100 | spreading a value that is not an object, array or string adds nothing |

## Left out

- I/O is not modelled. This covers file writes, `os.makedirs`/`chmod`, the platform test and `abspath` in the generator. `abspath` and the default `~/wrf_run` are the parameters `absolute` and `defaultDir` of `Generator.OutputDir`.
- Browser storage and JSON are parameters. A stored entry is an `Option<string>` (a `Result` where reading can throw), and `JSON.parse` is a partial function passed in. The store's persistence effect, which writes and reads back, is not modelled.
- Clocks are parameters: `Date.now()` is `now`, and the clock-derived dates of `DEFAULT_CONFIG` are `startDate`/`endDate`.
- JavaScript `Date` is read as UTC. Local time zones and daylight saving are not modelled.
- Timers are not modelled: the forms' submit delays, the legacy wizard's 300 ms page switch and the Lingxi reply's one-second wait. Each is taken as immediate, and the Lingxi request's settling is its own method, `LingxiAssistant.Chat.Complete`.
- The network is not modelled. The generator call in Output.js is the parameter `api`; the legacy wizard's `fetch` ends at the posted form data.
- Presentation is not modelled: DOM updates, animations, notifications, spinners, the success alert's display, Review's and the legacy summary's HTML, and the Lingxi model-info badge.
- `LingxiApi.LingxiModelInfo`, the record `getLingxiModelInfo` returns, is a constant with nothing to prove about it.
- Numbers are exact decimals, not binary doubles. Rounding is therefore not modelled, and nor are `formatFileSize` and float arithmetic on nest sizes (`int(e_we/3*r)`) and time steps (`int(dx*6)`).
- JsValue.ParseFloat: `Infinity` and `-Infinity`, and literals too large for a double (which read as Infinity) or too small (which read as 0), are not modelled; the model has no infinite number and keeps such literals exact.
- JsValue.StringToNumber: as for parseFloat, `Infinity` and out-of-range literals are not modelled; they read as NaN or as their exact value.
- JsValue.ComparisonsOfReals: compares exact values, so a comparison against Infinity or a literal beyond double range is not modelled.
- JsValue.ToJsString: numbers print in positional notation. JavaScript switches to exponent form at magnitudes of 1e21 and above or below 1e-6 (`String(1e21)` is "1e+21"); no number the wizard stores reaches those.
- JsValue.ParseInt: precision loss on digit runs beyond 2^53 is not modelled (see the line on doubles above).
- TimeForm.IsoTime: a day past the month's end ("2024-02-30") is read as an invalid Date, as SpiderMonkey and the ECMAScript date-time format do; V8 rolls it into the next month.
- PyDatetime.Strptime: only ASCII digits are read. CPython's `\d` also matches other Unicode decimal digits, which `int` accepts; the wizard's dates are ASCII.
- Generator.WrfGenerator.constructor: the precondition excludes a configuration whose output_dir makes `__init__` raise AttributeError (a truthy value that is not a str), because then no generator exists; `Generator.OutputDir` models that raise as its error result.
- PyValue.Str: `str` of a list or dict, and of a float outside positional notation, is reported as an error of the model rather than rendered, because no stored value in the wizard takes those forms.
- Generator.GfsScript: only the Unix branch of the GFS script (web_version/generator_module.py:501-520) is modelled. The Windows branch (lines 479-499) runs the same loop with other text. The ERA5, FNL and NARR scripts and the run script are fixed text.
- LegacyWizard.Wizard.GoToStep: a step's own validation (`validateStep`, regular expressions over the DOM inputs) is the parameter `currentValid`, and the Generate button's is `stepValid`.
- LegacyWizard.Wizard.constructor: the step indicators are assumed numbered 1..n in document order, with the first active.
- LegacyForm.SetPath: a store into a container that is an array or a string is dropped. In JavaScript it would set an index or a property; the form's names never take that path.
- In-place aliasing is not modelled. The legacy form data and the nested containers the save loop walks are values, and a write rebuilds the path upward.
- Inherited properties (`toString`, `constructor`, and so on) are not modelled: property reads see own properties only.
- LingxiApi.ToLowerCase: only ASCII capitals are lowered. Non-ASCII case mappings are not modelled, and none of the keywords needs them.
- LingxiAssistant.Chat.constructor: the four opening texts are a parameter rather than spelled out.
- TimePage: Time.js never gates Next, so there is no gate to model.
- The desktop Tkinter wizard, `web_version/server.py`, the Lingxi proxy and the axios wrapper are not part of this model. They are I/O around the same logic or presentation.
- JsValue.TrimStart and JsValue.TrimEnd carry no contract of their own. `Trim` is used by the string-to-number conversion and by the Lingxi send guard `SendEnabled`, and is stated only through them.

## Findings

| source | as written | input that shows it | evidently intended | confidence | as-written member | corrected member |
|---|---|---|---|---|---|---|
| src/context/ConfigContext.js:156-162 | `updateConfigSection` and `loadConfig` dispatch `{type, payload}`, but the reducer reads `action.section` and `action.data` | `updateConfigSection("time_control", {data_source: "ERA5"})` leaves time_control unchanged and adds an "undefined" key; `loadConfig(x)` leaves only `_lastUpdated` | the actions carry `section` and `data`, so an update merges into the named section and a load installs the document | not executed | GlobalConfig.UpdateWrapperMissesSection | GlobalConfig.IntendedUpdateMerges |
| web_version/generator_module.py:510-520 | the day loop runs while the day at the start's time of day is not after the end, so a final day whose cycles come before that time is skipped | start 2024-01-01_12:00:00, end 2024-01-02_06:00:00: the 00 UTC cycle of 2 January is inside the run but not fetched | every cycle of every day from the start's day to the end's that lies in [start, end] is fetched | not executed | Generator.GfsMissesLastMorning | Generator.IntendedGfsComplete |
| backend/app.py:161 | grid_id reads `parent_id_arr`, whose stored value for the outermost domain is [0] | the React store's initial domain section gives `grid_id = 0` in namelist.input | the outermost domain's grid_id is 1 | not executed | BackendApp.GridIdZeroFromStore | BackendApp.IntendedGridIdIsOne |
| web_version/static/js/script.js:202-205 | after a missing segment, the reduce goes on reading the remaining keys from the placeholder string "Not set" | on an empty form, `getNestedValue(formData, "a.length")` gives 7 | a miss anywhere along the path gives "Not set" | not executed | LegacyForm.PlaceholderLengthLeaks | LegacyForm.LookupMiss |
