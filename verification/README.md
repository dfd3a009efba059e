# Healthcare benefits survey — a Dafny model of its pure logic

The survey application collects an employer's benefits data (general
information, medical, dental and vision plans, retirement, time off, …),
checks it, scores how far each section is filled in, lets a spreadsheet be
charted, and exports the answers. This project models the deterministic
functions at the heart of it as pure Dafny functions over immutable data
and proves what the application relies on them for.

Modules, in the order the program uses them:

- `Options`, `JsText`, `Numbers`, `Values` — `undefined` as `None`, the
  JavaScript string operations used (`trim`, `split`, `join`, case
  mapping), numerals (`String(n)`, `Number(s)`, `parseInt`, `toFixed(2)`),
  and an untyped JavaScript value with truthiness, `typeof`, `in`,
  `String(v)` and `Object.keys(v).length`.
- `SeqUtil` — order-preserving `filter`, subsequences and block flattening.
- `Paths` — field paths such as `medicalPlans[0].rateTiers[1].monthlyPremium`
  as segments; rendering them to text is injective.
- `Patterns` — the e-mail regex `^[^\s@]+@[^\s@]+\.[^\s@]+$` and the phone
  regex `^\+?[\d\s\-()]+$` as string predicates.
- `SurveyTypes` — the survey document with every field optional.
- `Validation` — `validateData` of the submission validator: every rule,
  in the order it files its findings, then the split into errors and
  warnings, `isValid`, the per-field record and the three lookups.
- `ValidationProps`, `PlanProps`, `PlanFields`, `DentalFields` — for every
  field the validator checks, the exact list of findings the per-field
  record holds for it, as a function of the document.
- `Progress` — the completion bar: the per-section percentage, the section
  table, the overall mean and the number of completed sections.
- `ImportCheck` — the structural check of the import route on an untyped
  value, and the gate that answers 400 before anything is stored.
- `Feedback` — how findings are shown: the label made from a field path,
  the summary box and the note under a field.
- `Export`, `ExportPaths`, `TierNames`, `Navigation`, `SurveyPage` — the survey page:
  flattening the answers to CSV, naming rate tiers, grouping sections in
  the side navigation, and completing sections.
- `ExcelTypes`, `ChartData`, `ChartDisplay`, `ChartBuilder`, `ExcelPage`,
  `DataTable`, `ColumnPicker`, `FileUploader` — the spreadsheet visualiser:
  reading numbers from cells, building pie, categorical and scatter chart
  data, editing the chart configuration, the page's sheet and column
  state, the searchable paginated table, the column picker, and accepting
  and parsing an uploaded workbook.
- `JsonText`, `SummaryPage` — the survey summary page: `JSON.stringify`
  with indentation, and how answer keys and values are shown.
- `MinimalSurvey` — the one-question-at-a-time survey: answers, moving
  forward and back, keys, and the row saved at the end.

## Model

| member | source | states |
|---|---|---|
| `ValidationProps.SeverityPartition` | hooks/useValidation.ts:317-318 | every finding lands in exactly one of `errors` and `warnings`, errors holding only error-severity findings and warnings only warning-severity ones |
| `ValidationProps.ValidIffNoError` | hooks/useValidation.ts:317-321 | `isValid` holds exactly when no finding has severity error; warnings never make a survey invalid |
| `DentalFields.SurveyValidIff` | hooks/useValidation.ts:41-45 | a whole survey is valid exactly when none of the findings its rules produce is an error |
| `Validation.GroupByField` | hooks/useValidation.ts:308-315 | a field has an entry exactly when some finding is filed under it, and the entry lists those findings in production order |
| `ValidationProps.GetFieldErrorFirst` | hooks/useValidation.ts:358-363 | `getFieldError` finds something exactly when some finding is filed under the field, and then returns the earliest such finding |
| `ValidationProps.HasFieldErrorIff` | hooks/useValidation.ts:365-370 | `hasFieldError` holds exactly when some finding of severity error is filed under the field |
| `ValidationProps.HasFieldWarningIff` | hooks/useValidation.ts:372-377 | `hasFieldWarning` holds exactly when some finding of severity warning is filed under the field |
| `Patterns.EmailShapeIsRef` | hooks/useValidation.ts:64 | the first-`@` scan accepts exactly the strings of `^[^\s@]+@[^\s@]+\.[^\s@]+$` |
| `Patterns.EmailShapeChars` | hooks/useValidation.ts:64 | an address of the e-mail shape has exactly one `@` and no white space |
| `Patterns.PhoneShapeChars` | hooks/useValidation.ts:86 | a string of the phone shape holds no letter and no `+` except in first place |
| `Paths.RenderInjective` | hooks/useValidation.ts:50 | two well-formed field paths with the same text are the same path, so findings filed under one path's text belong to that path |
| `ValidationProps.OrganizationNameRecorded` | hooks/useValidation.ts:48-55 | `generalInformation.organizationName` holds one required error when the name is missing or blank after trimming, and nothing otherwise |
| `ValidationProps.EmailRecorded` | hooks/useValidation.ts:57-71 | `generalInformation.email` holds a required error when the address is blank, else a format error when the untrimmed address misses the e-mail shape, else nothing: never two findings |
| `ValidationProps.ContactPersonRecorded` | hooks/useValidation.ts:73-80 | `generalInformation.contactPerson` holds one required error when missing or blank, and nothing otherwise |
| `ValidationProps.PhoneRecorded` | hooks/useValidation.ts:82-89 | `generalInformation.phone` holds one format warning when a non-empty phone misses the phone shape, and nothing otherwise |
| `ValidationProps.PhoneNeverError` | hooks/useValidation.ts:82-89 | the phone field never has an error |
| `ValidationProps.EmployeeCountRecorded` | hooks/useValidation.ts:91-107 | `generalInformation.employeeCount` holds a range error when the count is negative, a range warning when it is zero, and nothing otherwise |
| `ValidationProps.EligibleEmployeesRecorded` | hooks/useValidation.ts:109-118 | `generalInformation.eligibleEmployees` holds exactly one logic error when both counts are given and eligible exceeds the count, and nothing otherwise |
| `ValidationProps.AverageAgeRecorded` | hooks/useValidation.ts:120-127 | `generalInformation.averageAge` holds one range warning when the age is outside [18, 100], and nothing otherwise |
| `ValidationProps.AverageAgeNeverError` | hooks/useValidation.ts:120-127 | the average-age field never has an error |
| `PlanFields.PlanNameRecorded` | hooks/useValidation.ts:133-140 | `medicalPlans[i].planName` holds one required error when plan i exists and its name is missing or blank, and nothing otherwise |
| `PlanFields.CarrierRecorded` | hooks/useValidation.ts:142-149 | `medicalPlans[i].carrier` holds one required error when plan i exists and its carrier is missing or blank |
| `PlanFields.PlanTypeRecorded` | hooks/useValidation.ts:151-158 | `medicalPlans[i].planType` holds one required error when plan i exists and its type is missing or empty (no trimming) |
| `PlanFields.EnrolledRecorded` | hooks/useValidation.ts:160-167 | `medicalPlans[i].enrolledEmployees` holds one range error when the enrolment is negative |
| `PlanFields.PremiumRecorded` | hooks/useValidation.ts:172-179 | `medicalPlans[i].rateTiers[j].monthlyPremium` holds one range error when the premium is given and not positive |
| `PlanFields.TierRecorded` | hooks/useValidation.ts:181-200 | `medicalPlans[i].rateTiers[j]` holds one logic error when the contributions miss the premium by more than 0.01, followed by one range error when either contribution is negative, and nothing else |
| `PlanFields.DeductibleRecorded` | hooks/useValidation.ts:208-226 | `medicalPlans[i].planDesign.deductible` holds a range error for a negative deductible, then a logic warning (not an error) when the family amount is below the individual one |
| `PlanFields.OutOfPocketRecorded` | hooks/useValidation.ts:228-237 | `medicalPlans[i].planDesign.outOfPocketMax` holds one logic warning when the family maximum is below the individual one, and never an error |
| `PlanFields.CoinsuranceRecorded` | hooks/useValidation.ts:239-248 | `medicalPlans[i].planDesign.coinsurance.inNetwork` holds one range error when the percentage is outside [0, 100] |
| `DentalFields.DentalPlanNameRecorded` | hooks/useValidation.ts:256-263 | `dentalPlans[i].planName` holds one required error when dental plan i exists and its name is missing or blank |
| `DentalFields.DentalCarrierRecorded` | hooks/useValidation.ts:265-272 | `dentalPlans[i].carrier` holds one required error when dental plan i exists and its carrier is missing or blank |
| `DentalFields.CoverageRecorded` | hooks/useValidation.ts:274-288 | `dentalPlans[i].planDesign.coverage.<name>` holds one range error when that percentage is given and outside [0, 100] |
| `DentalFields.FormulaRecorded` | hooks/useValidation.ts:293-306 | `retirement.plan401k.employerMatch.formula` holds one required error when the 401(k) is offered, a match is provided and the formula is blank |
| `DentalFields.UnreadSections` | hooks/useValidation.ts:41-306 | two surveys that agree on general information, medical and dental plans and retirement get the same result: no other section is read |
| `DentalFields.EmptySurveyValid` | hooks/useValidation.ts:41-325 | the empty survey `{}` is valid with no findings and an empty per-field record |
| `Progress.RoundRatio` | components/SurveyProgress.tsx:35 | `Math.round(a / b)` for non-negative `a` and positive `b` is the one integer within half of `a / b`, halves rounding up |
| `Progress.RoundRatioMonotone` | components/SurveyProgress.tsx:35 | a larger numerator never rounds to a smaller percentage |
| `Progress.FieldCompleteIff` | components/SurveyProgress.tsx:22-33 | a field counts as complete exactly when it is present and is none of `null`, `''`, `[]` and `{}`; `0` and `false` count |
| `Progress.CompletedCount` | components/SurveyProgress.tsx:21-33 | the count reaches the number of required fields exactly when every one is complete, and is zero exactly when none is |
| `Progress.SectionScore` | components/SurveyProgress.tsx:18-36 | a section's percentage lies in [0, 100] and is 0 for a falsy or absent section |
| `Progress.SectionFullIff` | components/SurveyProgress.tsx:18-36 | a section scores 100 exactly when it is truthy and every required field is complete |
| `Progress.SectionZeroIff` | components/SurveyProgress.tsx:18-36 | a section scores 0 exactly when it is falsy or no required field is complete |
| `Progress.SectionGrain` | components/SurveyProgress.tsx:35 | with at most five required fields a section short of 100 scores at most 80 |
| `Progress.ArraySectionFull` | components/SurveyProgress.tsx:46-60 | a plan list scores 100 whatever it holds, the empty list included, because its `length` is a present number |
| `Progress.TableGrain` | components/SurveyProgress.tsx:40-91 | the section table has ten entries, each with one to five required fields |
| `Progress.Sections` | components/SurveyProgress.tsx:93-104 | one row per table entry, in table order, with the entry's name, a total of 100 and a percentage in [0, 100] |
| `Progress.Overall` | components/SurveyProgress.tsx:106-110 | the overall score lies in [0, 100] and is the rounded mean of the section percentages |
| `Progress.CompletedSections` | components/SurveyProgress.tsx:112 | the number of complete sections reaches the number of rows exactly when every row is at 100 |
| `Progress.OverallFullIff` | components/SurveyProgress.tsx:106-110 | when every row is either 100 or at most 80, the mean rounds to 100 exactly when every row is 100 |
| `Progress.CompleteMessageTruthful` | components/SurveyProgress.tsx:184-206 | the "All sections have been filled out" message shows exactly when all ten sections are at 100, that is when all ten count as completed |
| `Progress.EmptySurveyZero` | components/SurveyProgress.tsx:93-110 | the empty survey scores 0 in every section and 0 overall |
| `ImportCheck.NotObjectOnly` | app/api/surveys/import/route.ts:100-104 | "Survey data must be an object" is reported exactly when the data is falsy or not an object, and then alone |
| `ImportCheck.NoSectionIff` | app/api/surveys/import/route.ts:106-124 | the missing-section error is reported exactly when none of the ten section keys is present, whatever their values |
| `ImportCheck.EmptyObjectErrors` | app/api/surveys/import/route.ts:97-186 | `{}` yields exactly the one missing-section error |
| `ImportCheck.KeyPresenceSuffices` | app/api/surveys/import/route.ts:121 | a section key whose value is `null` is enough to count as a section |
| `ImportCheck.GeneralErrorsIff` | app/api/surveys/import/route.ts:126-141 | general information that is truthy but not an object is reported; otherwise a truthy address failing the e-mail regex and a defined count that is not a non-negative number are each reported |
| `ImportCheck.ImportGeneralIff` | app/api/surveys/import/route.ts:126-141 | the whole import reports a general-information error exactly when the general-information check does |
| `ImportCheck.MedicalNotArray` | app/api/surveys/import/route.ts:144-147 | a truthy `medicalPlans` that is not an array is reported, and no per-plan error is reported for it |
| `ImportCheck.ImportNameIff` | app/api/surveys/import/route.ts:148-170 | `<section>[i].planName is required` is reported exactly when plan i exists and its name is falsy |
| `ImportCheck.ImportCarrierIff` | app/api/surveys/import/route.ts:152-173 | `<section>[i].carrier is required` is reported exactly when plan i exists and its carrier is falsy |
| `ImportCheck.ImportTiersIff` | app/api/surveys/import/route.ts:155-157 | `medicalPlans[i].rateTiers must be an array` is reported exactly when plan i has truthy rate tiers that are not an array |
| `ImportCheck.ImportVisionIff` | app/api/surveys/import/route.ts:178-183 | vision plans are only checked to be an array when truthy |
| `ImportCheck.ImportErrors` | app/api/surveys/import/route.ts:148-168 | a `null` plan in the medical or dental list makes the check throw, which nothing else does |
| `ImportCheck.ImportPost` | app/api/surveys/import/route.ts:42-94 | a non-empty error list answers 400 with the error texts before any insert; a thrown check answers 500; otherwise the data is created when `createNew` is truthy and returned for review with an empty error list when not |
| `ImportCheck.NoTrimming` | app/api/surveys/import/route.ts:149-150 | a plan name of spaces only passes the import check while the submission validator calls it blank |
| `ImportCheck.SameEmailRegex` | app/api/surveys/import/route.ts:188-190 | the import check and the submission validator accept the same e-mail addresses |
| `Feedback.IndexShown` | components/ValidationFeedback.tsx:149 | an index `[n]` becomes a space and the numeral of `n + 1` |
| `Feedback.DotsKept` | components/ValidationFeedback.tsx:149-150 | rewriting the indices adds and removes no dot, so a label has one part per dot-separated part of the path |
| `Feedback.Labels` | components/ValidationFeedback.tsx:150-157 | the number of titled parts is the number of dots in the path plus one |
| `Feedback.FormatPart` | components/ValidationFeedback.tsx:153-156 | a titled part has no white space at either end, starts with no lower-case letter, and is empty exactly when the part was all white space |
| `Feedback.FormatPartVisible` | components/ValidationFeedback.tsx:153-156 | titling a part only adds or removes white space and capitalises its first printing character |
| `Feedback.FormatPartSpaced` | components/ValidationFeedback.tsx:154 | every capital after the first character of a titled part stands after a space |
| `Feedback.IndexedFieldLabel` | components/ValidationFeedback.tsx:146-159 | `key[n].field` reads as the titled `key n+1`, then ` - `, then the titled field: `medicalPlans[0].planName` gives `Medical Plans 1 - Plan Name`, keeping the plural the source comment drops |
| `Feedback.ValidationSummary` | components/ValidationFeedback.tsx:60-105 | the summary renders nothing exactly when both lists are empty, and has an error box and a warning box exactly when the respective list is not empty |
| `Feedback.BoxOf` | components/ValidationFeedback.tsx:86-136 | a box lists the first findings up to its limit, in order, and its "more" line appears exactly when some are left out and counts exactly those |
| `Feedback.HeadingCounts` | components/ValidationFeedback.tsx:83-121 | each heading starts with the numeral of the box's finding count |
| `Feedback.HeadingPlural` | components/ValidationFeedback.tsx:83-121 | the headings use the plural exactly when the count is not one |
| `Feedback.FieldNotice` | components/ValidationFeedback.tsx:10-52 | no note without a finding; otherwise the note shows the message, is red with the error icon exactly for an error and shows the warning icon exactly for a warning |
| `Export.Put` | components/HealthcareSurvey.tsx:49-92 | assigning a key other than `__proto__` gives it the new value and leaves every other key's value alone; an existing key keeps its place and a new one goes last, so keys stay distinct |
| `Export.RecordHolds` | components/HealthcareSurvey.tsx:43-95 | a key other than `__proto__` is in the flattened record exactly when some assignment wrote it, and it holds the value written last; `__proto__` is never in the record, since its setter ignores a string |
| `Export.RecordOfDistinct` | components/HealthcareSurvey.tsx:43-95 | assignments to distinct keys give a record holding exactly those not made to `__proto__`, in the order made |
| `Export.JoinLines` | components/HealthcareSurvey.tsx:102 | a value with its line breaks replaced holds no line feed and is no longer than before |
| `Export.JoinLinesPlain` | components/HealthcareSurvey.tsx:102 | a value without line feeds is written as it is |
| `Export.CsvLineReads` | components/HealthcareSurvey.tsx:97-103 | each CSV line reads back, undoing the doubled quotes, as its field and its value with line breaks turned to spaces |
| `Export.CsvLinesSplit` | components/HealthcareSurvey.tsx:99-106 | when no field holds a line feed, the file splits into the `"Field","Value"` header and exactly one line per record entry, in order |
| `ExportPaths.WritesAreLeaves` | components/HealthcareSurvey.tsx:45-92 | the traversal assigns exactly the leaves of the answers, in index and key order, each under its path text (`path[i]`, `path.key`, a bare key at the root): a scalar as `String(v)`, `null` as `""`, an empty array as `[]`, an empty object as `{}`, nothing for an empty or `null` root |
| `ExportPaths.LeavesUnder` | components/HealthcareSurvey.tsx:66-85 | every leaf path extends the path of the value it sits in |
| `ExportPaths.LeavesDistinct` | components/HealthcareSurvey.tsx:66-85 | leaf paths are distinct when no object repeats a property name |
| `ExportPaths.FlattenIsLeaves` | components/HealthcareSurvey.tsx:42-95 | with plain property names, no assignment overwrites another: the flattened record is the list of leaves, less one at the top-level property `__proto__` |
| `ExportPaths.ExportLinePerLeaf` | components/HealthcareSurvey.tsx:42-106 | the CSV file holds the header and one line per stored leaf, which reads back as the leaf's path text and value |
| `ExportPaths.OnlyProtoLost` | components/HealthcareSurvey.tsx:42-95 | with plain property names, only a leaf at the top-level property `__proto__` can be lost: without one, every leaf is stored |
| `Export.ProtoAnswerHeaderOnly` | components/HealthcareSurvey.tsx:42-106 | answers holding only a top-level `__proto__` text flatten to an empty record, so the CSV file is the header line alone |
| `TierNames.TierName` | components/HealthcareSurvey.tsx:108-141 | the name is the fallback `Coverage Tier` or a name from the chosen structure's list |
| `TierNames.TierAt` | components/HealthcareSurvey.tsx:131-140 | a whole-number index 0 to 3 names the tier at that position |
| `TierNames.TierAtNumeral` | components/HealthcareSurvey.tsx:131-140 | an index given as a numeral string names the same tier as the number |
| `TierNames.MissingIndexFirst` | components/HealthcareSurvey.tsx:131-133 | a missing or `null` index reads as row 0 |
| `TierNames.FallbackIff` | components/HealthcareSurvey.tsx:131-140 | `Coverage Tier` comes back exactly when the index is not a number or lies outside 0 to 3, and `undefined` exactly for a fraction inside that range |
| `TierNames.UnreadableIndex` | components/HealthcareSurvey.tsx:131-137 | text `parseInt` cannot read, and `NaN`, give `Coverage Tier` |
| `TierNames.DefaultStructure` | components/HealthcareSurvey.tsx:125-128 | any structure other than `structure2`, a non-string or unknown name included, names the tiers of `structure1` |
| `Navigation.FindGroup` | components/HealthcareSurvey.tsx:171-172 | the lookup finds the first collapsible group with the tag's id, or reports none |
| `Navigation.GroupSectionsPartition` | components/HealthcareSurvey.tsx:168-194 | every section is listed under exactly one group, once and in index order; groups appear in first-seen order; tagged sections share the one collapsible group of their tag, headed by the first one's tag; untagged sections sit alone in a non-collapsible group of their own |
| `Navigation.GroupOfSection` | components/HealthcareSurvey.tsx:168-194 | the one group listing a section is its tag's collapsible group, or a group holding only that section |
| `Navigation.OpenActive` | components/HealthcareSurvey.tsx:201-216 | when the current section changes at most the active group is added to the open set, and nothing is removed |
| `Navigation.OpenActiveShows` | components/HealthcareSurvey.tsx:201-216 | after that step the tag group of a tagged current section is open, and an untagged current section changes nothing |
| `Navigation.Toggle` | components/HealthcareSurvey.tsx:218-228 | toggling flips whether that one group is open and leaves every other group as it was |
| `Navigation.ToggleTwice` | components/HealthcareSurvey.tsx:218-228 | toggling the same group twice restores the open set |
| `Navigation.AllGroupsCompleted` | components/HealthcareSurvey.tsx:237 | every group shows as completed exactly when every section is completed |
| `SurveyPage.JsonCopySafe` | components/HealthcareSurvey.tsx:30-37 | the JSON copy holds only finite numbers and leaves a value without non-finite numbers unchanged |
| `SurveyPage.SanitizeTwice` | components/HealthcareSurvey.tsx:30-37 | sanitizing twice equals sanitizing once, except for a bare non-finite number, which becomes `null` and then `{}` |
| `SurveyPage.Seeded` | components/HealthcareSurvey.tsx:444-453 | a section is seeded as completed exactly when its stored answers have at least one key; stored `null` throws |
| `SurveyPage.CompleteSection` | components/HealthcareSurvey.tsx:562-586 | completing section i stores its sanitized answers under its id and changes no other section's answers, adds i to the completed set, and shows section i+1, or finishes the survey after the last section |
| `SurveyPage.ExportCsv` | components/HealthcareSurvey.tsx:494-514 | there is a CSV exactly when some section's answers have a key |
| `SurveyPage.CompleteEnablesExport` | components/HealthcareSurvey.tsx:494-568 | completing a section whose answers have a key makes the CSV export available |
| `SurveyPage.SeededEnablesExport` | components/HealthcareSurvey.tsx:444-497 | if a section was seeded as completed, the CSV export is available |
| `ChartData.ParseNumericText` | components/excel/ChartDisplay.tsx:45-56 | a text cell reads as the number spelled by its digits, points and minus signs alone, so `$1,234.50` reads as `1234.50`; a blank cell reads as nothing |
| `ChartData.ParseNumericIgnores` | components/excel/ChartDisplay.tsx:50 | inserting any character other than a digit, `.` or `-` anywhere in a text cell leaves the number read unchanged |
| `ChartData.ParseNumericNumeral` | components/excel/ChartDisplay.tsx:41-58 | a cell holding the text of a number reads as that number, the same as the number itself |
| `ChartData.TallyAmount` | components/excel/ChartDisplay.tsx:74-78 | each label's running amount grows by exactly what the rows with that label contribute |
| `ChartData.TallyKeys` | components/excel/ChartDisplay.tsx:68-87 | a tally lists its labels in the order they first receive a contribution, each once |
| `ChartData.TallyTotal` | components/excel/ChartDisplay.tsx:68-87 | the amounts of a tally add up to the sum of all contributions |
| `ChartDisplay.BuildPie` | components/excel/ChartDisplay.tsx:60-89 | without a category column there is no data and the one category warning; otherwise the slices are named `name`/`value`, and a warning appears exactly when no slice was made |
| `ChartDisplay.PieSlices` | components/excel/ChartDisplay.tsx:68-88 | one slice per category that received a value, in first-seen order, each holding the sum of its rows' values |
| `ChartDisplay.PieCountsRows` | components/excel/ChartDisplay.tsx:71-74 | when counting, every category of the rows (blank ones as `Unspecified`) gets a slice holding its number of rows, and the slices add up to the number of rows |
| `ChartDisplay.BuildCategorical` | components/excel/ChartDisplay.tsx:91-157 | no X column gives the X warning; summing without a Y column gives the Y warning; otherwise buckets, with a warning exactly when no row has an X value |
| `ChartDisplay.CategoricalBuckets` | components/excel/ChartDisplay.tsx:105-156 | one bucket per distinct X label in first-seen order, starting from the raw X value of its first row and holding the tally of exactly its own rows |
| `ChartDisplay.SingleSeries` | components/excel/ChartDisplay.tsx:130-153 | without a group column the only series is `Count` when counting and the Y column when summing, listed once some row has an X value |
| `ChartDisplay.BuildScatter` | components/excel/ChartDisplay.tsx:159-183 | without both columns there is the scatter warning; otherwise the points, at most one per row, with a warning exactly when there are none |
| `ChartDisplay.ScatterPoints` | components/excel/ChartDisplay.tsx:169-176 | the points are exactly the rows whose two cells read as numbers, in row order, each at the numbers read |
| `ChartDisplay.BuildChart` | components/excel/ChartDisplay.tsx:188-225 | no rows gives the upload prompt; every chart type yields at most one warning, present exactly when there is no data |
| `ChartDisplay.RenderIffData` | components/excel/ChartDisplay.tsx:348-387 | a chart is drawn exactly when there is data, otherwise exactly one warning explains why, and the warning strip under a drawn chart never shows |
| `ChartDisplay.CountedPieDrawn` | components/excel/ChartDisplay.tsx:60-89 | a counted pie over at least one row is always drawn |
| `ChartBuilder.Chosen` | components/excel/ChartBuilder.tsx:122-124 | the empty choice of a select means no column; any other choice is that column |
| `ChartBuilder.EnsureSingleYKey` | components/excel/ChartBuilder.tsx:26-31 | at most one Y column, none exactly when no column was chosen |
| `ChartBuilder.TypeChange` | components/excel/ChartBuilder.tsx:38-63 | a pie takes the old category or X column (else the first column) and the old value column (else the second) and drops X, Y and group; other types take the old X or category column, keep their Y columns (or, without any, take the old value column or else the second column as the single Y column), drop category and value, and a scatter sums without groups |
| `ChartBuilder.AggregateChange` | components/excel/ChartBuilder.tsx:65-72 | counting drops the Y and value columns; summing changes only the aggregate |
| `ChartBuilder.Apply` | components/excel/ChartBuilder.tsx:74-107 | each column setter changes its own role and nothing else |
| `ChartBuilder.EditKeepsConsistent` | components/excel/ChartBuilder.tsx:38-107 | every edit the builder offers keeps a configuration consistent: at most one Y column, a scatter sums and has no group, and a pie has no X |
| `ChartBuilder.TypeChangeTwice` | components/excel/ChartBuilder.tsx:38-63 | choosing the same chart type twice is choosing it once |
| `ChartBuilder.PieAndBack` | components/excel/ChartBuilder.tsx:38-63 | switching to a pie and back keeps the X column, handed over as the pie's category |
| `ExcelPage.FindSheet` | app/excel/page.tsx:77-79 | the selected sheet is one of the sheets with the selected name, and there is none exactly when no sheet has that name |
| `ExcelPage.SheetsParsed` | app/excel/page.tsx:81-89 | uploaded sheets replace the shown ones, and a sheet is selected exactly when there is one |
| `ExcelPage.UploadSelectsFirst` | app/excel/page.tsx:77-89 | after an upload the first parsed sheet is the one shown, even when a later one has the same name |
| `ExcelPage.ColumnsFor` | app/excel/page.tsx:98-106 | the columns chosen for a new sheet are headers of that sheet, and there are some exactly when it has headers |
| `ExcelPage.ColumnsForKeeps` | app/excel/page.tsx:98-106 | the previous columns are kept in order exactly when the new sheet has one of them; otherwise its first six headers are chosen |
| `ExcelPage.ColumnsForTwice` | app/excel/page.tsx:98-106 | selecting the same sheet again leaves the columns as they are |
| `ExcelPage.ConfigFor` | app/excel/page.tsx:108-125 | a new sheet keeps the chart type and aggregate, takes its first header as X (none for a pie) and category, its second as Y and value, and drops the group |
| `ExcelPage.SheetChanged` | app/excel/page.tsx:91-96 | with no sheet selected the columns are cleared and the default configuration restored |
| `ExcelPage.ColumnChangeFits` | app/excel/page.tsx:128-156 | a role keeps its column exactly when the new columns include it, otherwise falls back to the first, second or no column, and afterwards every role of the chart names a chosen column |
| `ExcelPage.ColumnChangeTwice` | app/excel/page.tsx:128-156 | applying the same column change twice is applying it once |
| `ExcelPage.PageKeepsConsistent` | app/excel/page.tsx:61-156 | the default configuration is consistent and every page event keeps the configuration consistent |
| `DataTable.FormatCell` | components/excel/DataTable.tsx:14-25 | blank cells and non-finite numbers show nothing, finite numbers their locale text, and other values their `String` form |
| `DataTable.EffectiveColumns` | components/excel/DataTable.tsx:36-44 | the chosen columns, or else the keys of the first row, or else none |
| `DataTable.FilteredData` | components/excel/DataTable.tsx:46-60 | a blank search keeps every row; otherwise a row stays exactly when some column's value contains the trimmed, lower-cased search, the rows kept stay in their order, and a matching row keeps every one of its copies |
| `DataTable.FilteredTwice` | components/excel/DataTable.tsx:46-60 | searching the result again for the same text changes nothing |
| `DataTable.MaxPageCovers` | components/excel/DataTable.tsx:89 | the last page index is the one whose page holds the last row |
| `DataTable.Clamp` | components/excel/DataTable.tsx:87-95 | a page past the last becomes the last; any other page is kept |
| `DataTable.ClampShowsRows` | components/excel/DataTable.tsx:87-95 | clamping twice is clamping once, and when there are rows the page clamped to shows at least one |
| `DataTable.SearchEdit` | components/excel/DataTable.tsx:127-130 | typing a search shows the first page and keeps the page size |
| `DataTable.ExportRows` | components/excel/DataTable.tsx:97-101 | nothing is exported when no row passes the search; otherwise exactly the rows shown |
| `ColumnPicker.Toggle` | components/excel/ColumnPicker.tsx:13-18 | toggling flips whether the column is selected: an absent column is appended at the end, and removing a present one leaves the other columns in their order with every copy kept |
| `ColumnPicker.ToggleTwice` | components/excel/ColumnPicker.tsx:13-18 | toggling an unselected column twice restores the selection; toggling a selected one twice moves it to the end |
| `ColumnPicker.SelectAll` | components/excel/ColumnPicker.tsx:32-34 | "Select all" selects exactly the sheet's headers, and toggling any of them then removes exactly that header |
| `ColumnPicker.PreviewRows` | components/excel/ColumnPicker.tsx:21-26 | the preview shows the first rows of the sheet, five at most |
| `ColumnPicker.PreviewHeaders` | components/excel/ColumnPicker.tsx:99 | the preview shows the first headers of the sheet, six at most |
| `ColumnPicker.EmptyColSpan` | components/excel/ColumnPicker.tsx:113 | the "no data" row spans the previewed headers, and at least one column |
| `ColumnPicker.RenderCell` | components/excel/ColumnPicker.tsx:40-49 | the placeholder shows exactly for a blank cell, and a number shows its locale text |
| `JsonText.QuoteRoundTrip` | app/survey/summary/page.tsx:40 | a quoted JSON string reads back as the string it quotes, so different strings are written differently |
| `JsonText.EscapeOneLine` | app/survey/summary/page.tsx:40 | an escaped string holds no line feed, so every line break of the JSON text is layout |
| `JsonText.Stringify` | app/survey/summary/page.tsx:40 | the JSON text of an object is braced, of an array bracketed, and of a string reads back as that string |
| `SummaryPage.FormatKeyKeepsLetters` | app/survey/summary/page.tsx:48-55 | formatting a key only changes case and spacing: with spaces and underscores dropped and case ignored it is the key |
| `SummaryPage.FormatKeyNoUnderscore` | app/survey/summary/page.tsx:48-55 | a formatted key holds no underscore |
| `SummaryPage.FormatKeyWords` | app/survey/summary/page.tsx:48-55 | a formatted key has one word per space of the spaced key plus one, each capitalised with the rest in lower case, and each holding the letters of its piece of the key |
| `SummaryPage.SnakeCaseKey` | app/survey/summary/page.tsx:48-55 | a key of lower-case words joined by underscores reads as those words capitalised and joined by spaces |
| `SummaryPage.CamelCaseKey` | app/survey/summary/page.tsx:48-55 | a lower-case word followed by a capitalised one reads as the first word capitalised, a space, and the second as written |
| `SummaryPage.FormatValue` | app/survey/summary/page.tsx:35-46 | an array shows its items joined by commas, an object its indented JSON, a boolean `Yes` or `No`, any other truthy value its text, and anything falsy `Not provided` |
| `SummaryPage.BlankOnlyForArrays` | app/survey/summary/page.tsx:35-46 | a value shows as empty exactly when it is an array with no items or one item that shows as empty |
| `SummaryPage.NotProvidedWhenFalsy` | app/survey/summary/page.tsx:35-46 | apart from arrays, `Not provided` shows exactly for a falsy non-boolean value or the text `Not provided` itself |
| `SummaryPage.SummaryOf` | app/survey/summary/page.tsx:24-67 | no responses shows the empty notice; otherwise there is one block per entry |
| `SummaryPage.SummaryListsAnswers` | app/survey/summary/page.tsx:66-104 | one block per answer in order, titled by its key; a block is a section exactly when its answer is an object, and then it lists one line per nested answer with the key's title and the value's text |
| `FileUploader.AsWrittenSuffixes` | components/excel/FileUploader.tsx:18-23 | as written, a file is accepted exactly when its type is listed or its lower-cased name ends in `xlsx` or `xls`, with or without a dot |
| `FileUploader.AcceptsWithoutDot` | components/excel/FileUploader.tsx:18-23 | as written, a file named `notesxls` with no type is accepted, though it has no Excel extension |
| `FileUploader.AcceptedByExtension` | components/excel/FileUploader.tsx:11-23 | the corrected test accepts a file exactly when its type is listed or the extension after its last dot is `xlsx` or `xls` |
| `FileUploader.AcceptedAsWrittenToo` | components/excel/FileUploader.tsx:18-23 | every file the corrected test accepts is also accepted as written |
| `FileUploader.HeaderOf` | components/excel/FileUploader.tsx:39-44 | a blank header cell is named `Column n` after its one-based position; any other shows its text |
| `FileUploader.Headers` | components/excel/FileUploader.tsx:37-45 | the headers are the named cells of a non-empty first row, else the keys of the first data row, else none |
| `FileUploader.HeadersNamed` | components/excel/FileUploader.tsx:37-45 | every header of a first row is non-empty, and the placeholder names of blank cells are all different |
| `FileUploader.FirstColumnsCharted` | components/excel/FileUploader.tsx:37-45 | for a sheet with at least two header cells, the page charts the first header against the second |
| `FileUploader.ParseSheets` | components/excel/FileUploader.tsx:25-53 | one parsed sheet per workbook sheet, in order, with its name, rows and headers |
| `FileUploader.HandleFiles` | components/excel/FileUploader.tsx:60-98 | no file does nothing; a first file that fails the type test as written reports the invalid-file message; a load always holds at least one sheet |
| `FileUploader.ErrorAfter` | components/excel/FileUploader.tsx:60-98 | a load clears the error, a failure shows its message, and doing nothing keeps the previous one |
| `FileUploader.UploadOutcomes` | components/excel/FileUploader.tsx:60-98 | for a first file that passes the type test as written, each outcome arises exactly from its cause: unreadable, corrupt, no sheets, or loaded; a load keeps the sheet names in order and the page then shows the first sheet |
| `FileUploader.LoadsAccepted` | components/excel/FileUploader.tsx:66-88 | a file that passes the type test as written is loaded whenever the reader returns a workbook with sheets |
| `FileUploader.UploadReadsNotesXls` | components/excel/FileUploader.tsx:60-98 | a file named `notesxls` with no type is handed to the reader rather than refused, and a workbook read from it is loaded |
| `MinimalSurvey.IdsOfQuestions` | components/MinimalSurvey.tsx:14-41 | the five questions have five distinct ids |
| `MinimalSurvey.CountOf` | components/MinimalSurvey.tsx:69 | a number answer is the integer the input starts with, and 0 when it starts with none |
| `MinimalSurvey.Convert` | components/MinimalSurvey.tsx:61-70 | a yes/no answer is yes exactly for `y` or `yes` in any case; a choice records the selection; a number its integer; text the input |
| `MinimalSurvey.Next` | components/MinimalSurvey.tsx:61-90 | moving on records the answer under the question's id and changes no other answer, clears the input and selection, and hands the answers on for saving exactly after the last question |
| `MinimalSurvey.Previous` | components/MinimalSurvey.tsx:92-107 | going back from the first question does nothing; otherwise it shows the previous question and keeps every answer |
| `MinimalSurvey.NextThenPrevious` | components/MinimalSurvey.tsx:61-107 | going on and straight back restores the input: text exactly, a number as the numeral of its integer, a yes/no answer as `y` exactly when it was yes and `n` otherwise, and a selection exactly |
| `MinimalSurvey.InputKey` | components/MinimalSurvey.tsx:141-147 | Enter moves on exactly when the input is not blank after trimming, Escape goes back, and other keys do nothing |
| `MinimalSurvey.OptionKey` | components/MinimalSurvey.tsx:149-162 | Space toggles the option, Enter moves on once something is selected, Escape goes back, and nothing else happens |
| `MinimalSurvey.ClickOption` | components/MinimalSurvey.tsx:194-198 | a click flips whether the option is selected: an absent option is appended, a present one is removed with the others kept in order, and the step, answers and input are untouched |
| `MinimalSurvey.Typed` | components/MinimalSurvey.tsx:207-226 | the yes/no box keeps at most the first three characters typed; other inputs keep all of them |
| `MinimalSurvey.KeyHeld` | components/MinimalSurvey.tsx:72 | a question has an answer exactly when its id is among the answer keys |
| `MinimalSurvey.NextValid` | components/MinimalSurvey.tsx:61-90 | moving on keeps every earlier question answered, under distinct question ids |
| `MinimalSurvey.KeysKeepValid` | components/MinimalSurvey.tsx:61-198 | no key or click breaks that, and the answers handed on for saving hold exactly the five question ids |
| `MinimalSurvey.SaveResponse` | components/MinimalSurvey.tsx:109-139 | a row is stored exactly when the store is configured |
| `MinimalSurvey.SavedRowIgnoresAnswers` | components/MinimalSurvey.tsx:121-129 | the stored row is the same whatever the answers: none of them reaches the database |

## Left out

- Floating point: amounts are exact reals or decimals. IEEE rounding at the 0.01 contribution tolerance, `NaN` arithmetic and exponent notation in `String(n)` are not modelled.
- Locale formatting: `toFixed(2)` in messages is modelled on exact values with ties away from zero; `toLocaleString` is not modelled.
- Values of the wrong JavaScript type, and `null` in place of a field, are outside the typed survey document the submission validator is modelled on.
- `ValidationProps.HasFieldErrorIff`: `hasFieldError` looks a field up in a plain object, so a field text such as `constructor` or `toString` reaches an `Object.prototype` member without a `some` method and throws; the model answers from the per-field record only.
- `ValidationProps.HasFieldWarningIff`: `hasFieldWarning` makes the same plain-object lookup, so it throws for the same field texts; the model answers `false` for them.
- Debouncing, React state and effects, timers, and saving to the database are I/O and timing, not logic.
- `validateData` (hooks/useValidation.ts) has no time-off rule and the import route no deductible check; the per-survey validate route, which checks accrual rates, is not modelled.
- `Progress.SectionScore` requires a non-empty list of required fields: for an empty list the source divides by zero and yields `NaN`; no entry of the table has one.
- `Math.round` of the floating-point ratios is modelled as exact integer rounding, halves up; for the ratios that arise (at most five fields per section, ten sections) the two agree.
- The import route's authentication (401), user lookup (404), request-body parsing and the database insert with its own 500 answer are I/O; the model keeps the validation gate and the answer it picks.
- The markup of the feedback components (icons, class names, list keys) is reduced to the tone and icons shown and the texts of headings, items and "more" lines.
- `Export.Put`: JavaScript enumerates integer-like keys such as `5` before the others, in ascending order. The model keeps insertion order, which matches every path that is not a bare numeral.
- `ExportPaths.FlattenIsLeaves` needs property names free of `.`, `[` and `]`, and no repeated names. With other names, two paths can render to the same text, and then the record keeps the last value written under it, as `Export.RecordHolds` states.
- `ExportPaths.ExportLinePerLeaf` also needs property names without line feeds: the source writes them into the field column unchanged, so such a name would break a line.
- `TierNames.TierName` looks tier lists up by own keys only. A structure named after an `Object.prototype` member, such as `constructor`, reaches that member in the source and is read as `structure1` here.
- The JSON export, Blob downloads, local storage, the SurveyJS model and the per-keystroke save are I/O or third-party code. The model keeps the values they carry: the sanitized answers, the completed set and the current section.
- The spreadsheet parser (`XLSX.read`, `sheet_to_json`) and `FileReader` are third-party code and I/O: their results are inputs, as a read outcome and a list of raw sheets with rows and first row.
- `Date` cell values are not modelled; their ISO and locale texts are left out with the value kind.
- `ChartDisplay.BuildCategorical`: a bucket is a separate X value plus a list of series amounts. In the source a bucket is one plain object, so a series named like the X column would overwrite the X value; the model keeps them apart. The same holds for `ChartDisplay.CategoricalBuckets`: a group label or Y column named after an `Object.prototype` member (`constructor`, `toString`, ...) reads the inherited member through `?? 0`, so the source concatenates text instead of summing, and `__proto__` is never stored; the model sums every series from 0.
- `FileUploader.Headers`: `sheet_to_json` with `header: 1` and no default value leaves holes in a sparse first row, and `map` skips holes, so in the source such a header stays undefined. The model reads every missing cell as blank and names it `Column n`, so `FileUploader.HeadersNamed` and `FileUploader.FirstColumnsCharted` describe the source only for first rows without holes.
- `DataTable.Clamp` and `DataTable.MaxPageCovers` require a positive page size. The page-size menu only offers 10, 25, 50 and 100.
- `Papa.unparse`, Blob downloads, the PNG export of a chart, and the recharts markup are I/O and third-party rendering. The model keeps the rows exported and whether a chart is drawn.
- Case mapping (`toLowerCase`, `toUpperCase`) covers the ASCII letters only; other scripts keep their case.
- Drag-and-drop state, input focus, timers and router navigation are UI effects, not logic.
- `JsonText.Stringify`: characters are Unicode scalar values, so lone UTF-16 surrogates do not arise, and `Object.entries` of a string lists its characters rather than UTF-16 code units.
- `MinimalSurvey.SaveResponse`: the Supabase client and its error logging are I/O. Whether the store is configured is a parameter.
- `MinimalSurvey.Typed`: the browser's own filtering of a `type="number"` input is not modelled. Every text reaches `parseInt` as typed.

## Findings

| source | as written | input that shows it | evidently intended | confidence | as-written member | corrected member |
|---|---|---|---|---|---|---|
| components/excel/FileUploader.tsx:18-23 | `type.replace('.', '')` drops the dot before matching the file name, so any name ending in the letters `xls` or `xlsx` passes | a file named `notesxls` with an empty type | accept names whose extension is `.xlsx` or `.xls` | not executed | `FileUploader.AcceptsWithoutDot` | `FileUploader.AcceptedByExtension` |

The upload handler (`FileUploader.HandleFiles`) keeps the test as written, as the page does; `FileUploader.UploadReadsNotesXls` shows the consequence end to end. The corrected `FileUploader.Accepted` states the intended test on its own.
