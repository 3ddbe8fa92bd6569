/**
 * `SweepReport::from_raw_ipa_report` as the loops it is written with: the
 * pass over the devices, the pass over the tests of the first report, and in
 * each test the state search, the asset scan and the scan of the reports
 * built so far. Every method is proved to compute the function of the same
 * step in ReconcileSpec, so the properties proved there hold of it.
 */
module Reconcile {
  import opened Wrappers
  import opened StdText
  import opened Collaborators
  import opened IpaReport
  import opened Marker
  import opened ReconcileSpec
  import Raw = RawIpaReport

  /** The state search: a scan of the states that stops at the first identifier match. */
  method FindState(states: seq<Raw.State>, id: string) returns (found: Option<Raw.State>)
    ensures found == LookupState(states, id)
  {
    found := None;
    for k := 0 to |states|
      invariant found.None?
      invariant forall m :: 0 <= m < k ==> states[m].id != id
    {
      if states[k].id == id {
        found := Some(states[k]);
        LookupStateAt(states, id, k);
        return;
      }
    }
  }

  /** The asset scan: every asset ending in ".csv" replaces the one kept so far. */
  method FindCsvAsset(assets: seq<string>) returns (csv: Option<string>)
    ensures csv == LastCsvAsset(assets)
  {
    csv := None;
    for k := 0 to |assets|
      invariant csv == LastCsvAsset(assets[..k])
    {
      assert assets[..k + 1][..k] == assets[..k];
      if EndsWith(assets[k], CSV_SUFFIX) {
        csv := Some(assets[k]);
      }
    }
    assert assets[..|assets|] == assets;
  }

  /**
   * The side assignments of one report: for DTF the state id, the projected
   * state, the result and the marker read from the CSV asset; for RL the
   * state id, the projected state and the result.
   */
  method FillSide(report: Report, test: Raw.Test, ty: TestType, state: Raw.State, csv: string, result: TestResult,
                  env: Environment)
    returns (r: Result<Report, Error>)
    ensures BuildSide(ty, test, state, csv, result, env).Err? ==>
              r == Err(BuildSide(ty, test, state, csv, result, env).error)
    ensures BuildSide(ty, test, state, csv, result, env).Ok? ==>
              r == Ok(ApplySide(report, BuildSide(ty, test, state, csv, result, env).value))
  {
    match ty {
      case Dtf =>
        var dtfState := DtfStateFromRaw(state, env.parsers);
        if dtfState.Err? {
          return Err(dtfState.error);
        }
        var marker := MarkerPosition(env, csv);
        if marker.Err? {
          return Err(marker.error);
        }
        return Ok(report.(dtfStateId := Some(test.stateId), dtfState := Some(dtfState.value),
                          dtfResult := Some(result), dtfMarker := Some(marker.value)));
      case ReturnLoss =>
        var rlState := RlStateFromRaw(state);
        if rlState.Err? {
          return Err(rlState.error);
        }
        return Ok(report.(rlStateId := Some(test.stateId), rlState := Some(rlState.value), rlResult := Some(result)));
    }
  }

  /**
   * The scan of the reports built so far for one classified, parsed test:
   * the one-tag checks on every visited report, the state looked up again and
   * one side overwritten on a tag match, and a new report appended when no
   * report matched.
   */
  method MergeOneTest(reports: seq<Report>, test: Raw.Test, ty: TestType, state: Raw.State, csv: string,
                      result: TestResult, states: seq<Raw.State>, env: Environment)
    returns (r: Result<seq<Report>, Error>)
    requires LookupState(states, test.stateId) == Some(state)
    ensures r == MergeTest(reports, test, ty, state, csv, result, env)
  {
    ghost var side := BuildSide(ty, test, state, csv, result, env);
    ghost var tag: string := "";
    if |test.tags| > 0 {
      tag := test.tags[0].tag;
    }
    MergeTestCases(reports, test, ty, state, csv, result, env);
    var merged := reports;
    var duplicateTag := false;
    var associatedState := state;
    for j := 0 to |reports|
      invariant associatedState == state
      invariant j > 0 ==> |test.tags| == 1
      invariant duplicateTag <==> exists m :: 0 <= m < j && reports[m].tag == tag
      invariant duplicateTag ==> side.Ok?
      invariant merged == OverwrittenUpTo(reports, tag, side, j)
    {
      if |test.tags| == 0 {
        return Err(NoTagsOnTest);
      }
      if |test.tags| > 1 {
        return Err(MultipleTagsOnTest);
      }
      OverwrittenStep(reports, tag, side, j);
      if test.tags[0].tag == merged[j].tag {
        duplicateTag := true;
        var again := FindState(states, test.stateId);
        if again.Some? {
          associatedState := again.value;
        }
        var filled := FillSide(merged[j], test, ty, associatedState, csv, result, env);
        if filled.Err? {
          return Err(filled.error);
        }
        merged := merged[j := filled.value];
      }
    }

    OverwrittenAll(reports, tag, side);
    if duplicateTag {
      return Ok(merged);
    }
    if |test.tags| == 0 {
      return Err(NoTagsOnTest);
    }
    var appended := FillSide(Report(test.tags[0].tag, None, None, None, None, None, None, None), test, ty, associatedState,
                             csv, result, env);
    if appended.Err? {
      return Err(appended.error);
    }
    return Ok(merged + [appended.value]);
  }

  /** The reports before index `j` that carry `tag` with `side` applied, when the side could be built. */
  ghost function OverwrittenUpTo(reports: seq<Report>, tag: string, side: Result<Side, Error>, j: nat): seq<Report> {
    seq(|reports|, k requires 0 <= k < |reports| =>
      if k < j && reports[k].tag == tag && side.Ok? then ApplySide(reports[k], side.value) else reports[k])
  }

  /** Visiting report `j` overwrites it exactly when its tag matches and the side could be built. */
  lemma OverwrittenStep(reports: seq<Report>, tag: string, side: Result<Side, Error>, j: nat)
    requires j < |reports|
    ensures OverwrittenUpTo(reports, tag, side, j)[j] == reports[j]
    ensures OverwrittenUpTo(reports, tag, side, j + 1) ==
              if reports[j].tag == tag && side.Ok?
              then OverwrittenUpTo(reports, tag, side, j)[j := ApplySide(reports[j], side.value)]
              else OverwrittenUpTo(reports, tag, side, j)
  {
  }

  /** After the whole scan: the placement when some report matched, the unchanged list otherwise. */
  lemma OverwrittenAll(reports: seq<Report>, tag: string, side: Result<Side, Error>)
    ensures HasTag(reports, tag) && side.Ok? ==>
              OverwrittenUpTo(reports, tag, side, |reports|) == Place(reports, tag, side.value)
    ensures !HasTag(reports, tag) ==> OverwrittenUpTo(reports, tag, side, |reports|) == reports
  {
  }

  /** The three outcomes of a merge step: a tag error, a side error, or the placed side. */
  lemma MergeTestCases(reports: seq<Report>, test: Raw.Test, ty: TestType, state: Raw.State, csv: string,
                       result: TestResult, env: Environment)
    ensures TagOf(test.tags, |reports|).Err? ==>
              MergeTest(reports, test, ty, state, csv, result, env) == Err(TagOf(test.tags, |reports|).error)
    ensures TagOf(test.tags, |reports|).Ok? && BuildSide(ty, test, state, csv, result, env).Err? ==>
              MergeTest(reports, test, ty, state, csv, result, env) == Err(BuildSide(ty, test, state, csv, result, env).error)
    ensures TagOf(test.tags, |reports|).Ok? && BuildSide(ty, test, state, csv, result, env).Ok? ==>
              MergeTest(reports, test, ty, state, csv, result, env) ==
                Ok(Place(reports, TagOf(test.tags, |reports|).value, BuildSide(ty, test, state, csv, result, env).value))
  {
  }

  /** One test of the first report: classification, state, CSV asset, result, then the merge. */
  method ProcessOneTest(reports: seq<Report>, test: Raw.Test, states: seq<Raw.State>, env: Environment)
    returns (r: Result<seq<Report>, Error>)
    ensures r == ProcessTest(reports, test, states, env)
  {
    var testType := Classify(test.result.unit);
    if testType.Err? {
      return Err(testType.error);
    }
    var associatedState := FindState(states, test.stateId);
    if associatedState.None? {
      return Err(UnresolvedState(test.stateId));
    }
    var associatedCsvPath := FindCsvAsset(test.assets);
    if associatedCsvPath.None? {
      return Err(MissingCsvAsset);
    }
    var result := ParseTestResult(test, env.parsers);
    if result.Err? {
      return Err(result.error);
    }
    r := MergeOneTest(reports, test, testType.value, associatedState.value, associatedCsvPath.value,
                      result.value, states, env);
  }

  /**
   * `from_raw_ipa_report`: every device from its first details entry (with a
   * warning for each device with several), then every test of the first
   * report merged into the report list.
   */
  method FromRawIpaReport(input: Raw.Bundle, env: Environment) returns (r: Result<(SweepReport, seq<Warning>), Error>)
    ensures r == Reconcile(input, env)
  {
    var warnings: seq<Warning> := [];
    var devices: seq<Device> := [];
    for i := 0 to |input.devices|
      invariant NormalizeDevices(input.devices[..i], env.parsers) == Ok((devices, warnings))
    {
      NormalizeDevicesPrefix(input.devices, i, env.parsers);
      var device := input.devices[i];
      var details := device.details;
      if |details| == 0 {
        NormalizeDevicesErrPersists(input.devices, i + 1, env.parsers);
        return Err(MissingDeviceDetails);
      }
      ghost var before := warnings;
      if |details| != 1 {
        warnings := warnings + [Warning(DETAILS_WARNING, "1", Decimal(|details|))];
      }
      var item := details[0];
      var calibrated := env.parsers.rfc3339(item.calDate);
      if calibrated.None? {
        NormalizeDevicesErrPersists(input.devices, i + 1, env.parsers);
        return Err(TimestampParse(item.calDate));
      }
      var normalized := Device(device.serialNumber, device.model, item.id, item.swVersions, calibrated.value,
                               item.signature);
      assert DeviceFromRaw(device, env.parsers) == Ok(normalized);
      assert warnings == before + DetailsWarning(device);
      devices := devices + [normalized];
    }
    assert input.devices[..|input.devices|] == input.devices;

    if |input.reports| == 0 {
      return Err(MissingReport);
    }
    var tests := input.reports[0].tests;
    var reports: seq<Report> := [];
    for i := 0 to |tests|
      invariant ProcessTests(tests[..i], input.states, env) == Ok(reports)
    {
      ProcessTestsPrefix(tests, i, input.states, env);
      var step := ProcessOneTest(reports, tests[i], input.states, env);
      if step.Err? {
        ProcessTestsErrPersists(tests, i + 1, input.states, env);
        return Err(step.error);
      }
      reports := step.value;
    }
    assert tests[..|tests|] == tests;
    return Ok((SweepReport(devices, reports), warnings));
  }
}
