# kaelus-parse: reconciling an IPA sweep report

kaelus-parse reads the XML report that a Kaelus iVA/IPA cable and antenna analyser
writes after a sweep session. This project models the step that turns the decoded
bundle into a per-cable summary, `SweepReport::from_raw_ipa_report`, with the helpers
it calls:

- Devices: each test device is normalized from its first details entry. A device with
  more than one entry draws a warning.
- Tests: every test of the first report is classified by its unit. "VSWR" is a
  distance-to-fault (DTF) test, "dB" is a return-loss (RL) test, and any other unit is
  an error.
- States and assets: a test is matched to its calibration state by identifier (first
  match) and to its CSV asset (the last asset whose name ends in ".csv").
- Merging: the test's measurement block is parsed and filed under the cable's tag. A
  tag seen before has one side of its report overwritten; a new tag appends a report.
- Markers: for DTF tests, the distance marker is read from a fixed cell of the CSV file
  that sits next to the report file.

Every panic and `unwrap` of the Rust code is an `Err` of a named `IpaReport.Error` here,
so the outcome of a run is a `Result`.

The model is in layers:

- `RawIpaReport` holds the decoded input records.
- `IpaReport` holds the output records and the per-record projections.
- `Marker` models the CSV marker reader.
- `ReconcileSpec` defines the reconciliation as functions: a left fold over the devices,
  then over the tests.
- `ReconcileProps` proves what the reconciliation guarantees.
- `Reconcile` holds the loops of the Rust code as methods. Each method is proved to
  compute the function of the same step.
- `StdText` models the Rust string operations the code relies on: `split`, `lines`,
  `trim_end_matches`, `ends_with`, integer and boolean `parse`, and `to_string`.
- `Collaborators` stands for what is not modelled. The float parser, the chrono parsers,
  the process arguments and the file read are fields of an `Environment` value.

## Model

| member | source | states |
|---|---|---|
| StdText.Split | src/ipa_report.rs:16 | `str::split` on one character: one piece more than there are separators, no piece holds the separator, joining the pieces with the separator gives the input back, and the last piece is empty iff the input is empty or ends with the separator |
| StdText.SplitJoin | src/ipa_report.rs:110-111 | splitting a join of separator-free pieces gives exactly those pieces (inverse of `Join`) |
| StdText.SplitWithoutSeparator | src/ipa_report.rs:16 | text without the separator splits into one piece, itself |
| StdText.SplitAfterPiece | src/ipa_report.rs:16 | splitting "a,b" gives `a` followed by the pieces of `b` |
| StdText.Lines | src/ipa_report.rs:14 | `str::lines`: no line holds a line feed, and there is one line per line feed plus one for trailing text without a line feed |
| StdText.LinesOfTerminated | src/ipa_report.rs:14 | a text of `\n`-terminated plain lines reads back as exactly those lines (no trailing empty line) |
| StdText.LinesOfCrlfTerminated | src/ipa_report.rs:14 | a text of `\r\n`-terminated plain lines reads back as exactly those lines, carriage returns removed |
| StdText.LinesOfUnterminated | src/ipa_report.rs:14 | plain lines joined by `\n` with a non-empty last line and no final line feed read back as exactly those lines |
| StdText.EndsWithAppend | src/ipa_report.rs:101 | `ends_with`: any text followed by the suffix ends with it |
| StdText.TrimEndMatches | src/ipa_report.rs:11 | `trim_end_matches`: the result is a prefix of the input that no longer ends with the (non-empty) pattern; an empty pattern removes nothing |
| StdText.TrimEndMatchesRepeat | src/ipa_report.rs:11 | text not ending in the pattern, followed by any number of copies of it, trims back to exactly that text: only the trailing copies are removed |
| StdText.ParseUnsigned | src/ipa_report.rs:116-117 | `u32`/`u64` parse: succeeds exactly when the text is an optional '+' and then at least one digit whose value is at most the type's maximum, and the value is what those digits denote |
| StdText.ParseU32 | src/ipa_report.rs:116-117 | `u32` parse is the unsigned parse with maximum 2^32-1 |
| StdText.ParseU64 | src/ipa_report.rs:240-242 | `u64` parse is the unsigned parse with maximum 2^64-1 |
| StdText.ParseOverflow | src/ipa_report.rs:116-117 | the decimal text of a number above the maximum does not parse (overflow is an error) |
| StdText.ParseNonDigit | src/ipa_report.rs:116-117 | a character other than a digit after the optional '+' makes the parse fail |
| StdText.ParseSignedAndPadded | src/ipa_report.rs:116-117 | "+5" and "007" parse to 5 and 7: a leading '+' and leading zeros are accepted |
| StdText.ParseDecimal | src/ipa_report.rs:116-117 | parsing the decimal text of an in-range number gives that number (round trip with `to_string`) |
| StdText.Decimal | src/ipa_report.rs:56 | `usize::to_string`: non-empty decimal digits with no leading zero |
| StdText.DecimalValue | src/ipa_report.rs:56 | the digits of `Decimal(n)` denote `n` |
| StdText.ParseBool | src/ipa_report.rs:122 | `bool` parse succeeds exactly on "true" and "false" and yields true exactly on "true" |
| IpaReport.Classify | src/ipa_report.rs:80-84 | "VSWR" is DTF, "dB" is RL (both iff), any other unit fails with that unit |
| IpaReport.LookupState | src/ipa_report.rs:89-98 | none found iff no state has the id; a found state has the id and no earlier state has it (first match) |
| IpaReport.LookupStateAt | src/ipa_report.rs:89-94 | a state preceded only by states with other ids is the one found |
| IpaReport.LastCsvAsset | src/ipa_report.rs:100-108 | none iff no asset ends in ".csv"; a found asset ends in ".csv" and no later asset does (last match) |
| IpaReport.ParsePairNeedsTwoPieces | src/ipa_report.rs:110-119 | a `max`/`min` pair parses iff there are at least two colon-separated pieces and pieces 0 and 1 parse as floats |
| IpaReport.ParsePairOfPieces | src/ipa_report.rs:118-119 | the pair is the float parse of pieces 0 and 1; further pieces are ignored |
| IpaReport.ParseTestResult | src/ipa_report.rs:109-125 | success iff every field parses; measurement type and unit are copied and every other field is the parse of its text (`p1`/`p2` as `u32`, `max`/`min` as pairs, `avg`/`ripple` as floats, `pass` as bool, the calibration time and the minute timestamp); any failure is `ResultParse` |
| IpaReport.ProjectLimit | src/ipa_report.rs:244-249 | every field of limit 0 is carried over into the output limit (also at 276-281) |
| IpaReport.DtfStateFromRaw | src/ipa_report.rs:232-252 | success iff the band has two pieces that parse as `u64`, the points and the distance parse as `u64`, the cable loss parses as a float and a limit exists; the band, points, distance and cable loss are those parses, id, label and limit 0 are copied; failure is `InvalidState(id)` |
| IpaReport.DtfStateFromRawOfDecimals | src/ipa_report.rs:232-252 | a state written with a "low:high" band and decimal fields projects to exactly those values |
| IpaReport.RlStateFromRaw | src/ipa_report.rs:268-286 | success iff a limit exists and the points parse; id, label and limit 0 are copied; failure is `InvalidState(id)` |
| IpaReport.RlStateIgnoresSweepFields | src/ipa_report.rs:268-286 | the RL projection does not depend on the band, distance or cable-loss fields |
| Marker.AssetPathBesideReport | src/ipa_report.rs:11-13 | for a report path "dir/Report.xml" the asset path is "dir/" followed by the asset name |
| Marker.AssetPath | src/ipa_report.rs:11-13 | the asset path is a prefix of the report path, no longer ending in "Report.xml", followed by the asset name |
| Marker.MarkerField | src/ipa_report.rs:14-16 | success iff the text has a line index 13 with a field index 2; the cell is that field and holds no comma; otherwise `MalformedAsset` |
| Marker.MarkerFieldOfLines | src/ipa_report.rs:14-18 | for `\n`-terminated lines: the cell is field index 2 of line index 13, and a shorter file is malformed |
| Marker.MarkerFieldOfCrlfLines | src/ipa_report.rs:14-18 | the same for `\r\n`-terminated lines, without the carriage returns |
| Marker.MarkerFieldOfUnterminatedLines | src/ipa_report.rs:14-18 | the same for a file whose last line has no line feed |
| Marker.MarkerFieldExample | src/ipa_report.rs:16-18 | a line 13 of "1,2,12.34,5" gives the cell "12.34" |
| Marker.SplitExampleLine | src/ipa_report.rs:16 | "1,2,12.34,5" splits into its four fields |
| Marker.MarkerPosition | src/ipa_report.rs:8-19 | a readable, well-formed file with a parsable cell gives `Ok` of the float parse of the marker cell of the file beside the report; no report argument, unreadable file, malformed file and unparsable cell are each a distinct error |
| Marker.MarkerPositionExample | src/ipa_report.rs:8-19 | end to end, the example file yields the float of "12.34" |
| ReconcileSpec.DeviceFromRaw | src/ipa_report.rs:45-69 | success iff details exist and the calibration date parses; no details is `MissingDeviceDetails`, an unparsable date is `TimestampParse` of that date; fields come from details entry 0 |
| ReconcileSpec.DetailsWarning | src/ipa_report.rs:52-57 | a device warns exactly when it has more than one details entry, with message "Unexpected details Vec len", expected "1" and a result whose digits denote the entry count |
| ReconcileSpec.NormalizeDevices | src/ipa_report.rs:43-72 | success iff every device normalizes; one device per raw device, in order; otherwise the error of the first failing device |
| ReconcileSpec.NormalizeDevicesPrefix | src/ipa_report.rs:43-72 | one more loop iteration: the pass so far extended by that device and its warning |
| ReconcileSpec.NormalizeDevicesErrPersists | src/ipa_report.rs:48-50 | an error on a prefix of the devices is the error of the whole pass (early return) |
| ReconcileSpec.TagOf | src/ipa_report.rs:127-136 | no tags fails; several tags fail only once a report exists; the first test may carry several tags and uses the first |
| ReconcileSpec.BuildSide | src/ipa_report.rs:150-161 | the side is DTF iff the test is DTF and carries the test's state id and result; a DTF side holds `DtfStateFromRaw` of the matched state and `MarkerPosition` of the CSV asset, an RL side holds `RlStateFromRaw` of the state; it succeeds exactly when those succeed, and otherwise the failing projection or marker is the error, the state first |
| ReconcileSpec.ApplySide | src/ipa_report.rs:150-161 | the side's four (DTF) or three (RL) fields are set and the tag and the other side's fields are unchanged |
| ReconcileSpec.NewReport | src/ipa_report.rs:165-190 | a new report carries the tag and every field of the given side (state id, state, result and, for DTF, marker); the other side's id, state, result (and marker) are all `None` |
| ReconcileSpec.Place | src/ipa_report.rs:126-192 | the reports keep their tags and the tag is present afterwards; one report is appended iff none had the tag |
| ReconcileSpec.MergeTest | src/ipa_report.rs:126-192 | a tag error comes first, then a side error; a good tag and a good side give `Ok` of the side placed under the tag; on success the test had a tag, its tag is present, and at most one report was added |
| ReconcileSpec.ProcessTest | src/ipa_report.rs:76-193 | a successful step adds at most one report and removes none |
| ReconcileSpec.ProcessTestErrors | src/ipa_report.rs:80-136 | the errors of one test come in the code's order: unknown unit, unresolved state, missing CSV asset, result parse, then the tag checks; when the first four checks pass the step is the merge of the classified test, its state, its CSV asset and its parsed result |
| ReconcileSpec.ProcessTests | src/ipa_report.rs:76-193 | no tests give no reports; a successful run has at most one report per test |
| ReconcileSpec.Reconcile | src/ipa_report.rs:34-200 | a device error comes first, then a missing report, then the test pass's error; devices that normalize, a report and a test pass that succeeds give `Ok`, whose devices and warnings are those of the device pass and whose reports are those of the test pass over the first report |
| ReconcileSpec.ProcessTestsPrefix | src/ipa_report.rs:76-195 | one more loop iteration: the reports so far, then that test |
| ReconcileSpec.ProcessTestsErrPersists | src/ipa_report.rs:76-195 | a failure on a prefix of the tests is the failure of the whole run |
| ReconcileProps.MultiDetailIndexes | src/ipa_report.rs:43-57 | exactly the indexes of the devices with more than one details entry, in increasing order |
| ReconcileProps.WarningsForMultiDetailDevices | src/ipa_report.rs:52-57 | warning k belongs to the k-th device with more than one details entry: there are as many warnings as such devices, in device order, each with message "Unexpected details Vec len", expected "1" and that device's entry count |
| ReconcileProps.TwoDetailsExample | src/ipa_report.rs:52-57 | a device with two details entries is built from the first and warns "1" against "2" |
| ReconcileProps.ProcessTestOk | src/ipa_report.rs:76-195 | a processed test has a consistent side of its unit's kind that carries its parsed result, placed under its tag |
| ReconcileProps.TagChecks | src/ipa_report.rs:127-136 | no tags is always `NoTagsOnTest`; several tags are `MultipleTagsOnTest` only when a report exists; the first test creates a single report |
| ReconcileProps.PlaceKeepsOthers | src/ipa_report.rs:136-194 | placing a side changes only the reports with the tag, or appends one report |
| ReconcileProps.MergeOverwritesOneSide | src/ipa_report.rs:150-161 | other reports are unchanged; a VSWR test keeps the RL fields and sets the DTF state id and result, a dB test does the reverse; the report under the tag then holds `DtfStateFromRaw` of the matched state and `MarkerPosition` of the CSV asset (VSWR), or `RlStateFromRaw` of the state (dB), so the last write wins for every field; a new tag appends one report with the test's state id and result on its side and `None` for the other side's id and result |
| ReconcileProps.SideForProjections | src/ipa_report.rs:150-161 | the side a test contributes holds the projections of its matched state and, for DTF, the marker of its CSV asset |
| ReconcileProps.PlaceOverwritesOneSide | src/ipa_report.rs:136-192 | placing a side changes only that side of the reports under the tag; with a new tag it appends a report holding the side's state id, result (and marker) and `None` for the other side |
| ReconcileProps.PlaceSideFields | src/ipa_report.rs:150-190 | every report under the tag holds the placed side's state (and marker) |
| ReconcileProps.PlaceRecordsSide | src/ipa_report.rs:136-192 | placing keeps tags distinct, leaves the side under its tag, and removes no side |
| ReconcileProps.PlaceDistinct | src/ipa_report.rs:136-194 | placing keeps tags pairwise distinct and the tag present |
| ReconcileProps.PlaceWellFormed | src/ipa_report.rs:150-194 | placing a consistent side keeps every report well formed |
| ReconcileProps.PlaceExistingOrder | src/ipa_report.rs:136-161 | overwriting under a known tag keeps the first-seen order |
| ReconcileProps.PlaceNewOrder | src/ipa_report.rs:165-194 | appending a new tag keeps the first-seen order |
| ReconcileProps.PlacePreserves | src/ipa_report.rs:136-194 | placing keeps reports well formed and tags in first-seen order |
| ReconcileProps.SideRecorded | src/ipa_report.rs:136-194 | after a test its tag's report has the test's side, and no side of any report disappears |
| ReconcileProps.DtfAndRlMerge | src/ipa_report.rs:136-194 | a DTF and an RL test for one tag, in either order, leave one report with both sides populated |
| ReconcileProps.ProcessTestPreserves | src/ipa_report.rs:76-195 | one processed test keeps the report invariants, extended by its tag |
| ReconcileProps.ProcessTestsInvariant | src/ipa_report.rs:76-195 | after all tests every report is well formed and the tags are the distinct tags used, pairwise distinct, in first-seen order |
| ReconcileProps.ProcessTestTagged | src/ipa_report.rs:129-131 | a processed test has at least one tag |
| ReconcileProps.ProcessTestsTagged | src/ipa_report.rs:129-131 | every test of a successful run has at least one tag |
| ReconcileProps.DistinctTagCount | src/ipa_report.rs:136-194 | reports with distinct tags are as many as their tags |
| ReconcileProps.ReportCountIsDistinctTags | src/ipa_report.rs:76-195 | the number of reports equals the number of distinct tags the tests used |
| ReconcileProps.ReconcileOk | src/ipa_report.rs:34-200 | a successful run had a report; devices correspond one to one, in order; warning k belongs to the k-th device with several details entries; reports well formed, distinct, in first-seen order, one per distinct tag |
| ReconcileProps.UnknownUnitAbortsRun | src/ipa_report.rs:80-84 | a test with an unknown unit aborts the whole run with `UnknownTestUnit` and no partial result |
| Reconcile.FindState | src/ipa_report.rs:89-94 | the state scan with its early `break` returns the first state with the id |
| Reconcile.FindCsvAsset | src/ipa_report.rs:100-104 | the asset scan keeps the last asset ending in ".csv" |
| Reconcile.FillSide | src/ipa_report.rs:150-161 | the side assignments of one report are exactly the side built for the test, or its error |
| Reconcile.MergeOneTest | src/ipa_report.rs:127-194 | the scan of the reports built so far, with the in-loop tag checks, the state re-lookup (which finds the same state) and the overwrite, then the append, computes the merge step |
| Reconcile.ProcessOneTest | src/ipa_report.rs:78-194 | one loop iteration computes one step of the fold over tests, errors in the same order |
| Reconcile.FromRawIpaReport | src/ipa_report.rs:34-200 | the whole method, with its device and test loops, computes `Reconcile`, whose properties are proved above |

## Left out

- Decoding the XML (`raw_report_from_str` in src/raw_ipa_report.rs) is not modelled; the input is the decoded `Bundle`. Wrapper structs that hold a single list are flattened into that list.
- Floating-point and chrono parsing are not modelled: `f64::from_str`, `DateTime::parse_from_rfc3339`, `NaiveTime::from_str` and `Utc.datetime_from_str` with "%Y-%m-%d %H:%M" are arbitrary functions in `Collaborators.Parsers`, and an `f64` is its 64-bit pattern.
- `env::args()` and `fs::read_to_string` are modelled by the `args` and `readFile` fields of `Collaborators.Environment`. File contents are taken as already-decoded text.
- Panic messages and the `String` error text of `from_raw_ipa_report` are replaced by `IpaReport.Error` variants. A panic ends the whole program, whereas here it ends the run with `Err`, which is the only observable difference.
- The "no associated state" check after the re-lookup in the tag-match branch (src/ipa_report.rs:145-147) is not a separate branch: the state is already set there, so it cannot fail. `Reconcile.MergeOneTest` performs the re-lookup and proves it finds the same state.
- src/main.rs (argument handling, ASCII cleaning, printing, sorting by tag) is not part of this model.
- A CSV asset is required for RL tests as well, as in the code. The RL side never reads it.
- The one-tag checks are not a separate validation run first on every test. As in the code, they run inside the scan of the existing reports, after classification, state lookup, CSV lookup and result parsing. So those errors take precedence, and the first test of a run may carry several tags and is filed under the first one.
- `StdText.Lines` follows `str::lines` as of Rust 1.77: a line loses one carriage return before its line feed, and a lone carriage return at the very end of the text stays on the last line (older toolchains also stripped that one).
- The device warning's text is "Unexpected details Vec len", as in the code (src/ipa_report.rs:54), not a reworded message.
