/**
 * The normalized report records and the per-record projections used while
 * reconciling a raw bundle: unit classification, state lookup, CSV asset
 * lookup, measurement parsing and the DTF / RL state projections.
 */
module IpaReport {
  import opened Wrappers
  import opened StdText
  import opened Collaborators
  import Raw = RawIpaReport

  /** Every condition under which reconciliation gives up. */
  datatype Error =
    | MissingDeviceDetails
    | TimestampParse(text: string)
    | MissingReport
    | UnknownTestUnit(unit: string)
    | UnresolvedState(stateId: string)
    | MissingCsvAsset
    | ResultParse
    | NoTagsOnTest
    | MultipleTagsOnTest
    | InvalidState(stateId: string)
    | MissingReportPath
    | AssetReadError(path: string)
    | MalformedAsset
    | MarkerParse(text: string)

  /** A non-fatal anomaly: what was expected and what was found, as text. */
  datatype Warning = Warning(message: string, expected: string, result: string)

  datatype TestType = Dtf | ReturnLoss

  datatype Device = Device(
    serialNumber: string,
    model: string,
    id: string,
    swVersion: string,
    calibrationDate: DateTimeTz,
    signature: string)

  datatype Limit = Limit(
    limitType: string,
    measurementType: string,
    unit: string,
    name: string,
    referenceValue: string)

  datatype DtfState = DtfState(
    id: string,
    testType: string,
    rxKhz: (U64, U64),
    points: U64,
    limitDistance: U64,
    cableLossDbm: F64,
    limit: Limit)

  datatype RlState = RlState(
    id: string,
    testType: string,
    points: U64,
    limit: Limit)

  datatype TestResult = TestResult(
    measurementType: string,
    unit: string,
    p1: U32,
    p2: U32,
    max: (F64, F64),
    min: (F64, F64),
    avg: F64,
    ripple: F64,
    pass: bool,
    calibrated: NaiveTime,
    time: NaiveDateTime)

  /** One cable, keyed by its tag, with an optional DTF side and an optional RL side. */
  datatype Report = Report(
    tag: string,
    dtfStateId: Option<string>,
    rlStateId: Option<string>,
    dtfState: Option<DtfState>,
    rlState: Option<RlState>,
    dtfMarker: Option<F64>,
    dtfResult: Option<TestResult>,
    rlResult: Option<TestResult>)

  datatype SweepReport = SweepReport(devices: seq<Device>, reports: seq<Report>)

  // ---------------------------------------------------------------------------
  // classification and lookups
  // ---------------------------------------------------------------------------

  /** A closed classification by unit: there is no fallback for other units. */
  function Classify(unit: string): (r: Result<TestType, Error>)
    ensures r == Ok(Dtf) <==> unit == "VSWR"
    ensures r == Ok(ReturnLoss) <==> unit == "dB"
    ensures r.Err? ==> r.error == UnknownTestUnit(unit)
  {
    match unit
    case "VSWR" => Ok(Dtf)
    case "dB" => Ok(ReturnLoss)
    case _ => Err(UnknownTestUnit(unit))
  }

  /** The first state whose identifier is `id`, if any. */
  function LookupState(states: seq<Raw.State>, id: string): (r: Option<Raw.State>)
    ensures r.None? <==> forall k :: 0 <= k < |states| ==> states[k].id != id
    ensures r.Some? ==> r.value.id == id
    ensures r.Some? ==>
              exists k :: 0 <= k < |states| && states[k] == r.value &&
                (forall m :: 0 <= m < k ==> states[m].id != id)
  {
    if states == [] then None
    else if states[0].id == id then Some(states[0])
    else
      var r := LookupState(states[1..], id);
      assert forall k :: 1 <= k < |states| ==> states[k] == states[1..][k - 1];
      r
  }

  /** A state preceded only by states with other identifiers is the one found. */
  lemma LookupStateAt(states: seq<Raw.State>, id: string, k: nat)
    requires k < |states| && states[k].id == id
    requires forall m :: 0 <= m < k ==> states[m].id != id
    ensures LookupState(states, id) == Some(states[k])
  {
    var r := LookupState(states, id);
    var j :| 0 <= j < |states| && states[j] == r.value && forall m :: 0 <= m < j ==> states[m].id != id;
    assert j == k;
  }

  const CSV_SUFFIX: string := ".csv"

  /** The last asset whose name ends in ".csv", if any. */
  function LastCsvAsset(assets: seq<string>): (r: Option<string>)
    ensures r.None? <==> forall k :: 0 <= k < |assets| ==> !EndsWith(assets[k], CSV_SUFFIX)
    ensures r.Some? ==> EndsWith(r.value, CSV_SUFFIX)
    ensures r.Some? ==>
              exists k :: 0 <= k < |assets| && assets[k] == r.value &&
                (forall m :: k < m < |assets| ==> !EndsWith(assets[m], CSV_SUFFIX))
  {
    if assets == [] then None
    else
      var last := assets[|assets| - 1];
      if EndsWith(last, CSV_SUFFIX) then Some(last)
      else
        var r := LastCsvAsset(assets[..|assets| - 1]);
        assert forall k :: 0 <= k < |assets| - 1 ==> assets[k] == assets[..|assets| - 1][k];
        r
  }

  // ---------------------------------------------------------------------------
  // measurement parsing
  // ---------------------------------------------------------------------------

  /** A "position:value" pair: pieces 0 and 1 of the colon split, each a float. */
  function ParsePair(text: string, p: Parsers): Option<(F64, F64)> {
    var pieces := Split(text, ':');
    if |pieces| < 2 then None
    else
      var first :- p.float(pieces[0]);
      var second :- p.float(pieces[1]);
      Some((first, second))
  }

  /** A pair parses only when the text has at least two colon-separated pieces, each a float. */
  lemma ParsePairNeedsTwoPieces(text: string, p: Parsers)
    ensures ParsePair(text, p).Some? <==>
              |Split(text, ':')| >= 2 && p.float(Split(text, ':')[0]).Some? && p.float(Split(text, ':')[1]).Some?
  {
  }

  /** Only the first two colon-separated pieces matter; further pieces are ignored. */
  lemma ParsePairOfPieces(pieces: seq<string>, p: Parsers)
    requires |pieces| >= 2
    requires forall k :: 0 <= k < |pieces| ==> ':' !in pieces[k]
    ensures ParsePair(Join(pieces, ':'), p) ==
              if p.float(pieces[0]).Some? && p.float(pieces[1]).Some?
              then Some((p.float(pieces[0]).value, p.float(pieces[1]).value))
              else None
  {
    SplitJoin(pieces, ':');
  }

  /** The measurement block of one test, every numeric, boolean and time field parsed. */
  function ParseTestResult(t: Raw.Test, p: Parsers): (r: Result<TestResult, Error>)
    ensures r.Ok? ==> r.value.measurementType == t.result.measurementType && r.value.unit == t.result.unit
    ensures r.Ok? ==> ParseBool(t.result.pass) == Some(r.value.pass)
    ensures r.Ok? ==> ParsePair(t.result.maximum, p) == Some(r.value.max) &&
                      ParsePair(t.result.minimum, p) == Some(r.value.min)
    ensures r.Ok? ==> ParseU32(t.result.p1) == Some(r.value.p1) && ParseU32(t.result.p2) == Some(r.value.p2)
    ensures r.Ok? ==> p.float(t.result.average) == Some(r.value.avg) && p.float(t.result.ripple) == Some(r.value.ripple)
    ensures r.Ok? ==> p.naiveTime(t.calibrated) == Some(r.value.calibrated) &&
                      p.minuteTimestamp(t.time) == Some(r.value.time)
    ensures r.Ok? <==> ParseU32(t.result.p1).Some? && ParseU32(t.result.p2).Some? &&
                       ParsePair(t.result.maximum, p).Some? && ParsePair(t.result.minimum, p).Some? &&
                       p.float(t.result.average).Some? && p.float(t.result.ripple).Some? &&
                       ParseBool(t.result.pass).Some? && p.naiveTime(t.calibrated).Some? &&
                       p.minuteTimestamp(t.time).Some?
    ensures r.Err? ==> r.error == ResultParse
  {
    var raw := t.result;
    var p1 := ParseU32(raw.p1);
    var p2 := ParseU32(raw.p2);
    var max := ParsePair(raw.maximum, p);
    var min := ParsePair(raw.minimum, p);
    var avg := p.float(raw.average);
    var ripple := p.float(raw.ripple);
    var pass := ParseBool(raw.pass);
    var calibrated := p.naiveTime(t.calibrated);
    var time := p.minuteTimestamp(t.time);
    // every failure is `ResultParse`, so the order of the checks does not matter
    if p1.Some? && p2.Some? && max.Some? && min.Some? && avg.Some? && ripple.Some? && pass.Some? &&
       calibrated.Some? && time.Some?
    then
      Ok(TestResult(raw.measurementType, raw.unit, p1.value, p2.value, max.value, min.value, avg.value,
                    ripple.value, pass.value, calibrated.value, time.value))
    else
      Err(ResultParse)
  }

  // ---------------------------------------------------------------------------
  // state projections
  // ---------------------------------------------------------------------------

  /** A limit with every field carried over. */
  function ProjectLimit(l: Raw.Limit): (r: Limit)
    ensures r.limitType == l.limitType && r.measurementType == l.measurementType && r.unit == l.unit
    ensures r.name == l.name && r.referenceValue == l.reference
  {
    Limit(l.limitType, l.measurementType, l.unit, l.name, l.reference)
  }

  /**
   * `DtfState::from_raw`: needs the frequency band, the distance, the cable
   * loss and at least one limit; copies the identifier, the label and limit 0.
   */
  function DtfStateFromRaw(s: Raw.State, p: Parsers): (r: Result<DtfState, Error>)
    ensures r.Ok? ==> s.rxKhz.Some? && s.distanceM.Some? && s.cableLossDbPerM.Some? && |s.limits| >= 1
    ensures r.Ok? ==> r.value.id == s.id && r.value.testType == s.testType &&
                      r.value.limit == ProjectLimit(s.limits[0])
    ensures r.Ok? ==> ParseU64(s.points) == Some(r.value.points)
    ensures r.Ok? ==> var band := Split(s.rxKhz.value, ':');
                      |band| >= 2 && ParseU64(band[0]) == Some(r.value.rxKhz.0) &&
                      ParseU64(band[1]) == Some(r.value.rxKhz.1) &&
                      ParseU64(s.distanceM.value) == Some(r.value.limitDistance) &&
                      p.float(s.cableLossDbPerM.value) == Some(r.value.cableLossDbm)
    ensures r.Ok? <==> s.rxKhz.Some? && s.distanceM.Some? && s.cableLossDbPerM.Some? && |s.limits| >= 1 &&
                       (var band := Split(s.rxKhz.value, ':');
                        |band| >= 2 && ParseU64(band[0]).Some? && ParseU64(band[1]).Some?) &&
                       ParseU64(s.points).Some? && ParseU64(s.distanceM.value).Some? &&
                       p.float(s.cableLossDbPerM.value).Some?
    ensures r.Err? ==> r.error == InvalidState(s.id)
  {
    var fail := InvalidState(s.id);
    var rx :- s.rxKhz.ToResult(fail);
    var band := Split(rx, ':');
    if |s.limits| == 0 || |band| < 2 then Err(fail)
    else
      var low :- ParseU64(band[0]).ToResult(fail);
      var high :- ParseU64(band[1]).ToResult(fail);
      var points :- ParseU64(s.points).ToResult(fail);
      var distanceText :- s.distanceM.ToResult(fail);
      var distance :- ParseU64(distanceText).ToResult(fail);
      var lossText :- s.cableLossDbPerM.ToResult(fail);
      var loss :- p.float(lossText).ToResult(fail);
      Ok(DtfState(s.id, s.testType, (low, high), points, distance, loss, ProjectLimit(s.limits[0])))
  }

  /**
   * A state written with a "low:high" band and decimal sweep fields projects
   * to exactly those values.
   */
  lemma DtfStateFromRawOfDecimals(s: Raw.State, p: Parsers, low: U64, high: U64, points: U64,
                                  distance: U64, loss: F64)
    requires |s.limits| >= 1
    requires s.rxKhz == Some(Decimal(low) + ":" + Decimal(high))
    requires s.points == Decimal(points) && s.distanceM == Some(Decimal(distance))
    requires s.cableLossDbPerM.Some? && p.float(s.cableLossDbPerM.value) == Some(loss)
    ensures DtfStateFromRaw(s, p) ==
              Ok(DtfState(s.id, s.testType, (low, high), points, distance, loss, ProjectLimit(s.limits[0])))
  {
    assert ':' !in Decimal(low) && ':' !in Decimal(high);
    assert Join([Decimal(low), Decimal(high)], ':') == s.rxKhz.value;
    SplitJoin([Decimal(low), Decimal(high)], ':');
    ParseDecimal(low, MAX_U64);
    ParseDecimal(high, MAX_U64);
    ParseDecimal(points, MAX_U64);
    ParseDecimal(distance, MAX_U64);
  }

  /** `RlState::from_raw`: needs only the sweep points and limit 0. */
  function RlStateFromRaw(s: Raw.State): (r: Result<RlState, Error>)
    ensures r.Ok? <==> |s.limits| >= 1 && ParseU64(s.points).Some?
    ensures r.Ok? ==> r.value.id == s.id && r.value.testType == s.testType &&
                      r.value.limit == ProjectLimit(s.limits[0]) && ParseU64(s.points) == Some(r.value.points)
    ensures r.Err? ==> r.error == InvalidState(s.id)
  {
    if |s.limits| == 0 then Err(InvalidState(s.id))
    else
      var points :- ParseU64(s.points).ToResult(InvalidState(s.id));
      Ok(RlState(s.id, s.testType, points, ProjectLimit(s.limits[0])))
  }

  /** The RL projection does not look at the DTF-only fields of a state. */
  lemma RlStateIgnoresSweepFields(s: Raw.State, rx: Option<string>, distance: Option<string>,
                                  loss: Option<string>)
    ensures RlStateFromRaw(s.(rxKhz := rx, distanceM := distance, cableLossDbPerM := loss)) == RlStateFromRaw(s)
  {
  }
}
