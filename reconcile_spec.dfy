/**
 * What `SweepReport::from_raw_ipa_report` computes, as functions: the device
 * pass, then one step per test of the first report, each step either
 * overwriting one side of the report that already carries the test's tag or
 * appending a new report with one side.
 */
module ReconcileSpec {
  import opened Wrappers
  import opened StdText
  import opened Collaborators
  import opened IpaReport
  import opened Marker
  import Raw = RawIpaReport

  // ---------------------------------------------------------------------------
  // devices
  // ---------------------------------------------------------------------------

  const DETAILS_WARNING: string := "Unexpected details Vec len"

  /** One device, built from its first details entry; no entry at all is an error. */
  function DeviceFromRaw(d: Raw.Device, p: Parsers): (r: Result<Device, Error>)
    ensures r.Ok? <==> |d.details| >= 1 && p.rfc3339(d.details[0].calDate).Some?
    ensures |d.details| == 0 ==> r == Err(MissingDeviceDetails)
    ensures |d.details| >= 1 && p.rfc3339(d.details[0].calDate).None? ==> r == Err(TimestampParse(d.details[0].calDate))
    ensures r.Ok? ==> r.value.serialNumber == d.serialNumber && r.value.model == d.model
    ensures r.Ok? ==> r.value.id == d.details[0].id && r.value.swVersion == d.details[0].swVersions &&
                      r.value.signature == d.details[0].signature &&
                      Some(r.value.calibrationDate) == p.rfc3339(d.details[0].calDate)
  {
    if |d.details| == 0 then Err(MissingDeviceDetails)
    else
      var item := d.details[0];
      var calibrated :- p.rfc3339(item.calDate).ToResult(TimestampParse(item.calDate));
      Ok(Device(d.serialNumber, d.model, item.id, item.swVersions, calibrated, item.signature))
  }

  /** The warning a device with more than one details entry raises. */
  function DetailsWarning(d: Raw.Device): (r: seq<Warning>)
    ensures |r| == 1 <==> |d.details| > 1
    ensures |r| <= 1
    ensures |r| == 1 ==> r[0].message == DETAILS_WARNING && r[0].expected == "1" &&
                         AllDigits(r[0].result) && DigitsValue(r[0].result) == |d.details|
  {
    if |d.details| > 1 then
      DecimalValue(|d.details|);
      [Warning(DETAILS_WARNING, "1", Decimal(|d.details|))]
    else []
  }

  /**
   * The device pass: one device per raw device, in input order, or the error
   * of the first device that cannot be normalized.
   */
  function NormalizeDevices(ds: seq<Raw.Device>, p: Parsers): (r: Result<(seq<Device>, seq<Warning>), Error>)
    ensures r.Ok? <==> forall i :: 0 <= i < |ds| ==> DeviceFromRaw(ds[i], p).Ok?
    ensures r.Ok? ==> |r.value.0| == |ds| &&
                      forall i :: 0 <= i < |ds| ==> DeviceFromRaw(ds[i], p) == Ok(r.value.0[i])
    ensures r.Err? ==>
              exists i :: 0 <= i < |ds| && DeviceFromRaw(ds[i], p) == Err(r.error) &&
                (forall j :: 0 <= j < i ==> DeviceFromRaw(ds[j], p).Ok?)
  {
    if ds == [] then Ok(([], []))
    else
      var n := |ds| - 1;
      assert forall i :: 0 <= i < n ==> ds[..n][i] == ds[i];
      var before :- NormalizeDevices(ds[..n], p);
      var device :- DeviceFromRaw(ds[n], p);
      Ok((before.0 + [device], before.1 + DetailsWarning(ds[n])))
  }

  /** One more device: the pass so far, then that device. */
  lemma NormalizeDevicesPrefix(ds: seq<Raw.Device>, i: nat, p: Parsers)
    requires i < |ds|
    ensures NormalizeDevices(ds[..i], p).Err? ==>
              NormalizeDevices(ds[..i + 1], p) == Err(NormalizeDevices(ds[..i], p).error)
    ensures NormalizeDevices(ds[..i], p).Ok? && DeviceFromRaw(ds[i], p).Err? ==>
              NormalizeDevices(ds[..i + 1], p) == Err(DeviceFromRaw(ds[i], p).error)
    ensures NormalizeDevices(ds[..i], p).Ok? && DeviceFromRaw(ds[i], p).Ok? ==>
              var before := NormalizeDevices(ds[..i], p).value;
              NormalizeDevices(ds[..i + 1], p) ==
                Ok((before.0 + [DeviceFromRaw(ds[i], p).value], before.1 + DetailsWarning(ds[i])))
  {
    assert ds[..i + 1][..i] == ds[..i];
  }

  /** Once a prefix of the devices fails, the whole pass fails the same way. */
  lemma {:induction false} NormalizeDevicesErrPersists(ds: seq<Raw.Device>, i: nat, p: Parsers)
    requires i <= |ds| && NormalizeDevices(ds[..i], p).Err?
    ensures NormalizeDevices(ds, p) == NormalizeDevices(ds[..i], p)
    decreases |ds| - i
  {
    if i < |ds| {
      NormalizeDevicesPrefix(ds, i, p);
      NormalizeDevicesErrPersists(ds, i + 1, p);
    } else {
      assert ds[..i] == ds;
    }
  }

  // ---------------------------------------------------------------------------
  // tests
  // ---------------------------------------------------------------------------

  /** The measurement one test contributes to its cable's report. */
  datatype Side =
    | DtfSide(stateId: string, dtfState: DtfState, result: TestResult, marker: F64)
    | RlSide(stateId: string, rlState: RlState, result: TestResult)

  /**
   * The tag a test is filed under. The one-tag checks run inside the scan of
   * the existing reports, so they only apply once a report exists; the first
   * test may carry several tags (the first one is used) but not none.
   */
  function TagOf(tags: seq<Raw.Tag>, reportCount: nat): (r: Result<string, Error>)
    ensures r.Ok? ==> |tags| >= 1 && r.value == tags[0].tag
    ensures |tags| == 0 ==> r == Err(NoTagsOnTest)
    ensures reportCount > 0 && |tags| > 1 ==> r == Err(MultipleTagsOnTest)
    ensures reportCount == 0 && |tags| >= 1 ==> r == Ok(tags[0].tag)
  {
    if reportCount > 0 && |tags| == 0 then Err(NoTagsOnTest)
    else if reportCount > 0 && |tags| > 1 then Err(MultipleTagsOnTest)
    else if |tags| == 0 then Err(NoTagsOnTest)
    else Ok(tags[0].tag)
  }

  /** The side a classified test fills: the projected state, the result and, for DTF, the marker. */
  function BuildSide(ty: TestType, test: Raw.Test, state: Raw.State, csv: string, result: TestResult,
                     env: Environment): (r: Result<Side, Error>)
    ensures r.Ok? ==> (r.value.DtfSide? <==> ty == Dtf)
    ensures r.Ok? ==> r.value.stateId == test.stateId && r.value.result == result
    ensures r.Ok? && r.value.DtfSide? ==>
              DtfStateFromRaw(state, env.parsers) == Ok(r.value.dtfState) && MarkerPosition(env, csv) == Ok(r.value.marker)
    ensures r.Ok? && r.value.RlSide? ==> RlStateFromRaw(state) == Ok(r.value.rlState)
    ensures r.Ok? && r.value.DtfSide? ==> r.value.dtfState.id == state.id
    ensures r.Ok? && r.value.RlSide? ==> r.value.rlState.id == state.id
    ensures ty == Dtf && DtfStateFromRaw(state, env.parsers).Err? ==> r == Err(DtfStateFromRaw(state, env.parsers).error)
    ensures ty == Dtf && DtfStateFromRaw(state, env.parsers).Ok? && MarkerPosition(env, csv).Err? ==>
              r == Err(MarkerPosition(env, csv).error)
    ensures ty == ReturnLoss && RlStateFromRaw(state).Err? ==> r == Err(RlStateFromRaw(state).error)
    ensures ty == Dtf && DtfStateFromRaw(state, env.parsers).Ok? && MarkerPosition(env, csv).Ok? ==> r.Ok?
    ensures ty == ReturnLoss && RlStateFromRaw(state).Ok? ==> r.Ok?
  {
    match ty
    case Dtf =>
      var st :- DtfStateFromRaw(state, env.parsers);
      var marker :- MarkerPosition(env, csv);
      Ok(DtfSide(test.stateId, st, result, marker))
    case ReturnLoss =>
      var st :- RlStateFromRaw(state);
      Ok(RlSide(test.stateId, st, result))
  }

  /** Overwrites the side of `r` that `side` belongs to. */
  function ApplySide(r: Report, side: Side): (out: Report)
    ensures out.tag == r.tag
    ensures side.DtfSide? ==>
              out.dtfStateId == Some(side.stateId) && out.dtfState == Some(side.dtfState) &&
              out.dtfResult == Some(side.result) && out.dtfMarker == Some(side.marker) &&
              out.rlStateId == r.rlStateId && out.rlState == r.rlState && out.rlResult == r.rlResult
    ensures side.RlSide? ==>
              out.rlStateId == Some(side.stateId) && out.rlState == Some(side.rlState) &&
              out.rlResult == Some(side.result) &&
              out.dtfStateId == r.dtfStateId && out.dtfState == r.dtfState &&
              out.dtfResult == r.dtfResult && out.dtfMarker == r.dtfMarker
  {
    match side
    case DtfSide(id, st, res, m) =>
      r.(dtfStateId := Some(id), dtfState := Some(st), dtfResult := Some(res), dtfMarker := Some(m))
    case RlSide(id, st, res) =>
      r.(rlStateId := Some(id), rlState := Some(st), rlResult := Some(res))
  }

  /** A fresh report for `tag` with only `side` populated. */
  function NewReport(tag: string, side: Side): (r: Report)
    ensures r.tag == tag
    ensures side.DtfSide? ==>
              r.dtfStateId == Some(side.stateId) && r.dtfState == Some(side.dtfState) &&
              r.dtfResult == Some(side.result) && r.dtfMarker == Some(side.marker) &&
              r.rlStateId.None? && r.rlState.None? && r.rlResult.None?
    ensures side.RlSide? ==>
              r.rlStateId == Some(side.stateId) && r.rlState == Some(side.rlState) && r.rlResult == Some(side.result) &&
              r.dtfStateId.None? && r.dtfState.None? && r.dtfResult.None? && r.dtfMarker.None?
  {
    ApplySide(Report(tag, None, None, None, None, None, None, None), side)
  }

  predicate HasTag(reports: seq<Report>, tag: string) {
    exists k :: 0 <= k < |reports| && reports[k].tag == tag
  }

  /** Overwrites the side of every report carrying `tag`, or appends a new report. */
  function Place(reports: seq<Report>, tag: string, side: Side): (r: seq<Report>)
    ensures |r| == |reports| + (if HasTag(reports, tag) then 0 else 1)
    ensures forall k :: 0 <= k < |reports| ==> r[k].tag == reports[k].tag
    ensures HasTag(r, tag)
  {
    if HasTag(reports, tag) then
      seq(|reports|, k requires 0 <= k < |reports| =>
        if reports[k].tag == tag then ApplySide(reports[k], side) else reports[k])
    else
      var appended := reports + [NewReport(tag, side)];
      assert appended[|reports|].tag == tag;
      appended
  }

  /**
   * The tag scan and its consequence: the side of the report that already
   * carries the test's tag is overwritten, or a report is appended.
   */
  function MergeTest(reports: seq<Report>, test: Raw.Test, ty: TestType, state: Raw.State, csv: string,
                     result: TestResult, env: Environment): (r: Result<seq<Report>, Error>)
    ensures TagOf(test.tags, |reports|).Err? ==> r == Err(TagOf(test.tags, |reports|).error)
    ensures TagOf(test.tags, |reports|).Ok? && BuildSide(ty, test, state, csv, result, env).Err? ==>
              r == Err(BuildSide(ty, test, state, csv, result, env).error)
    ensures TagOf(test.tags, |reports|).Ok? && BuildSide(ty, test, state, csv, result, env).Ok? ==>
              r == Ok(Place(reports, TagOf(test.tags, |reports|).value, BuildSide(ty, test, state, csv, result, env).value))
    ensures r.Ok? ==> |test.tags| >= 1 && HasTag(r.value, test.tags[0].tag) &&
                      |reports| <= |r.value| <= |reports| + 1
  {
    var tag :- TagOf(test.tags, |reports|);
    var side :- BuildSide(ty, test, state, csv, result, env);
    Ok(Place(reports, tag, side))
  }

  /** One iteration of the loop over tests. */
  function ProcessTest(reports: seq<Report>, test: Raw.Test, states: seq<Raw.State>, env: Environment)
    : (r: Result<seq<Report>, Error>)
    ensures r.Ok? ==> |reports| <= |r.value| <= |reports| + 1
  {
    var ty :- Classify(test.result.unit);
    var state :- LookupState(states, test.stateId).ToResult(UnresolvedState(test.stateId));
    var csv :- LastCsvAsset(test.assets).ToResult(MissingCsvAsset);
    var result :- ParseTestResult(test, env.parsers);
    MergeTest(reports, test, ty, state, csv, result, env)
  }

  /**
   * The errors of one test, in the order the code raises them: unit, state,
   * CSV asset, result, then the tag checks.
   */
  lemma ProcessTestErrors(reports: seq<Report>, test: Raw.Test, states: seq<Raw.State>, env: Environment)
    ensures Classify(test.result.unit).Err? ==>
              ProcessTest(reports, test, states, env) == Err(UnknownTestUnit(test.result.unit))
    ensures Classify(test.result.unit).Ok? && LookupState(states, test.stateId).None? ==>
              ProcessTest(reports, test, states, env) == Err(UnresolvedState(test.stateId))
    ensures Classify(test.result.unit).Ok? && LookupState(states, test.stateId).Some? &&
              LastCsvAsset(test.assets).None? ==>
              ProcessTest(reports, test, states, env) == Err(MissingCsvAsset)
    ensures Classify(test.result.unit).Ok? && LookupState(states, test.stateId).Some? &&
              LastCsvAsset(test.assets).Some? && ParseTestResult(test, env.parsers).Err? ==>
              ProcessTest(reports, test, states, env) == Err(ResultParse)
    ensures Classify(test.result.unit).Ok? && LookupState(states, test.stateId).Some? &&
              LastCsvAsset(test.assets).Some? && ParseTestResult(test, env.parsers).Ok? &&
              TagOf(test.tags, |reports|).Err? ==>
              ProcessTest(reports, test, states, env) == Err(TagOf(test.tags, |reports|).error)
    ensures Classify(test.result.unit).Ok? && LookupState(states, test.stateId).Some? &&
              LastCsvAsset(test.assets).Some? && ParseTestResult(test, env.parsers).Ok? ==>
              ProcessTest(reports, test, states, env) ==
                MergeTest(reports, test, Classify(test.result.unit).value, LookupState(states, test.stateId).value,
                          LastCsvAsset(test.assets).value, ParseTestResult(test, env.parsers).value, env)
  {
  }

  /** The loop over tests, from no reports. */
  function ProcessTests(tests: seq<Raw.Test>, states: seq<Raw.State>, env: Environment)
    : (r: Result<seq<Report>, Error>)
    ensures tests == [] ==> r == Ok([])
    ensures r.Ok? ==> |r.value| <= |tests|
  {
    if tests == [] then Ok([])
    else
      var reports :- ProcessTests(tests[..|tests| - 1], states, env);
      ProcessTest(reports, tests[|tests| - 1], states, env)
  }

  /** One more test: the loop so far, then that test. */
  lemma ProcessTestsPrefix(tests: seq<Raw.Test>, i: nat, states: seq<Raw.State>, env: Environment)
    requires i < |tests|
    ensures ProcessTests(tests[..i], states, env).Err? ==>
              ProcessTests(tests[..i + 1], states, env) == Err(ProcessTests(tests[..i], states, env).error)
    ensures ProcessTests(tests[..i], states, env).Ok? ==>
              ProcessTests(tests[..i + 1], states, env) ==
                ProcessTest(ProcessTests(tests[..i], states, env).value, tests[i], states, env)
  {
    assert tests[..i + 1][..i] == tests[..i];
  }

  /** Once a prefix of the tests fails, the whole loop fails the same way. */
  lemma {:induction false} ProcessTestsErrPersists(tests: seq<Raw.Test>, i: nat, states: seq<Raw.State>,
                                                   env: Environment)
    requires i <= |tests| && ProcessTests(tests[..i], states, env).Err?
    ensures ProcessTests(tests, states, env) == ProcessTests(tests[..i], states, env)
    decreases |tests| - i
  {
    if i < |tests| {
      ProcessTestsPrefix(tests, i, states, env);
      ProcessTestsErrPersists(tests, i + 1, states, env);
    } else {
      assert tests[..i] == tests;
    }
  }

  /** `from_raw_ipa_report`: devices first, then the tests of the first report. */
  function Reconcile(input: Raw.Bundle, env: Environment): (r: Result<(SweepReport, seq<Warning>), Error>)
    ensures NormalizeDevices(input.devices, env.parsers).Err? ==>
              r == Err(NormalizeDevices(input.devices, env.parsers).error)
    ensures NormalizeDevices(input.devices, env.parsers).Ok? && |input.reports| == 0 ==> r == Err(MissingReport)
    ensures NormalizeDevices(input.devices, env.parsers).Ok? && |input.reports| >= 1 &&
              ProcessTests(input.reports[0].tests, input.states, env).Err? ==>
              r == Err(ProcessTests(input.reports[0].tests, input.states, env).error)
    ensures NormalizeDevices(input.devices, env.parsers).Ok? && |input.reports| >= 1 &&
              ProcessTests(input.reports[0].tests, input.states, env).Ok? ==>
              r.Ok?
    ensures r.Ok? ==> |input.reports| >= 1 &&
                      (r.value.0.devices, r.value.1) == NormalizeDevices(input.devices, env.parsers).value &&
                      Ok(r.value.0.reports) == ProcessTests(input.reports[0].tests, input.states, env) &&
                      |r.value.0.reports| <= |input.reports[0].tests|
  {
    var devices :- NormalizeDevices(input.devices, env.parsers);
    if |input.reports| == 0 then Err(MissingReport)
    else
      var reports :- ProcessTests(input.reports[0].tests, input.states, env);
      Ok((SweepReport(devices.0, reports), devices.1))
  }
}
