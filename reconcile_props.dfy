/**
 * Properties of the reconciliation: device normalization and its warnings,
 * the tag checks, how one test changes the report list, and what holds of
 * the whole list once every test has been processed.
 */
module ReconcileProps {
  import opened Wrappers
  import opened StdText
  import opened Collaborators
  import opened IpaReport
  import opened Marker
  import opened ReconcileSpec
  import Raw = RawIpaReport

  // ---------------------------------------------------------------------------
  // devices
  // ---------------------------------------------------------------------------

  /** The indexes of the devices with more than one details entry, in increasing order. */
  function MultiDetailIndexes(ds: seq<Raw.Device>): (r: seq<nat>)
    ensures forall k :: 0 <= k < |r| ==> r[k] < |ds| && |ds[r[k]].details| > 1
    ensures forall i, j :: 0 <= i < j < |r| ==> r[i] < r[j]
    ensures forall i :: 0 <= i < |ds| && |ds[i].details| > 1 ==> i in r
  {
    if ds == [] then []
    else
      var n := |ds| - 1;
      assert forall i :: 0 <= i < n ==> ds[..n][i] == ds[i];
      MultiDetailIndexes(ds[..n]) + (if |ds[n].details| > 1 then [n] else [])
  }

  lemma NormalizeDevicesStep(ds: seq<Raw.Device>, p: Parsers)
    requires ds != [] && NormalizeDevices(ds, p).Ok?
    ensures var n := |ds| - 1;
            NormalizeDevices(ds[..n], p).Ok? &&
            NormalizeDevices(ds, p).value.1 == NormalizeDevices(ds[..n], p).value.1 + DetailsWarning(ds[n])
  {
  }

  /**
   * Warning k belongs to the k-th device with more than one details entry:
   * it expects "1" and reports that device's entry count.
   */
  predicate WarnsForMultiDetailDevices(ds: seq<Raw.Device>, ws: seq<Warning>) {
    var idx := MultiDetailIndexes(ds);
    |ws| == |idx| &&
    forall k :: 0 <= k < |ws| ==> ws[k] == Warning(DETAILS_WARNING, "1", Decimal(|ds[idx[k]].details|))
  }

  lemma WarningsExtend(ds: seq<Raw.Device>, wsBefore: seq<Warning>, ws: seq<Warning>)
    requires ds != [] && WarnsForMultiDetailDevices(ds[..|ds| - 1], wsBefore)
    requires ws == wsBefore + DetailsWarning(ds[|ds| - 1])
    ensures WarnsForMultiDetailDevices(ds, ws)
  {
    var n := |ds| - 1;
    var before := MultiDetailIndexes(ds[..n]);
    var idx := MultiDetailIndexes(ds);
    assert idx == before + (if |ds[n].details| > 1 then [n] else []);
    forall k | 0 <= k < |ws|
      ensures ws[k] == Warning(DETAILS_WARNING, "1", Decimal(|ds[idx[k]].details|))
    {
      if k < |wsBefore| {
        assert idx[k] == before[k] < n;
        assert ds[..n][before[k]] == ds[before[k]];
      } else {
        assert idx[k] == n;
      }
    }
  }

  lemma {:induction false} WarningsForMultiDetailDevices(ds: seq<Raw.Device>, p: Parsers)
    requires NormalizeDevices(ds, p).Ok?
    ensures WarnsForMultiDetailDevices(ds, NormalizeDevices(ds, p).value.1)
  {
    if ds != [] {
      var n := |ds| - 1;
      NormalizeDevicesStep(ds, p);
      WarningsForMultiDetailDevices(ds[..n], p);
      WarningsExtend(ds, NormalizeDevices(ds[..n], p).value.1, NormalizeDevices(ds, p).value.1);
    }
  }

  /** A lone device with two details entries: it is built from the first and warns "1" vs "2". */
  lemma TwoDetailsExample(d: Raw.Device, p: Parsers)
    requires |d.details| == 2 && p.rfc3339(d.details[0].calDate).Some?
    ensures NormalizeDevices([d], p) ==
              Ok(([DeviceFromRaw(d, p).value], [Warning(DETAILS_WARNING, "1", "2")]))
  {
    assert [d][..0] == [];
    assert Decimal(2) == [DigitChar(2)] == "2";
    assert DetailsWarning(d) == [Warning(DETAILS_WARNING, "1", "2")];
    assert NormalizeDevices([d][..0], p) == Ok(([], []));
    var device := DeviceFromRaw(d, p).value;
    assert NormalizeDevices([d], p) == Ok(([] + [device], [] + DetailsWarning(d)));
    assert [] + [device] == [device];
    assert [] + DetailsWarning(d) == [Warning(DETAILS_WARNING, "1", "2")];
  }

  // ---------------------------------------------------------------------------
  // report invariants
  // ---------------------------------------------------------------------------

  /**
   * A report has at least one side; each side's fields are all present or all
   * absent; a side's state id is the id of its projected state.
   */
  predicate WellFormed(r: Report) {
    (r.dtfStateId.Some? == r.dtfState.Some?) && (r.dtfState.Some? == r.dtfResult.Some?) &&
    (r.dtfResult.Some? == r.dtfMarker.Some?) &&
    (r.rlStateId.Some? == r.rlState.Some?) && (r.rlState.Some? == r.rlResult.Some?) &&
    (r.dtfState.Some? || r.rlState.Some?) &&
    (r.dtfState.Some? ==> r.dtfStateId == Some(r.dtfState.value.id)) &&
    (r.rlState.Some? ==> r.rlStateId == Some(r.rlState.value.id))
  }

  predicate AllWellFormed(rs: seq<Report>) {
    forall k :: 0 <= k < |rs| ==> WellFormed(rs[k])
  }

  predicate DistinctTags(rs: seq<Report>) {
    forall i, j :: 0 <= i < j < |rs| ==> rs[i].tag != rs[j].tag
  }

  /** A side whose state id is the id of the state it carries. */
  predicate SideConsistent(side: Side) {
    match side
    case DtfSide(id, st, _, _) => st.id == id
    case RlSide(id, st, _) => st.id == id
  }

  /** The tag a test is filed under when it has one. */
  function UsedTag(t: Raw.Test): string {
    if |t.tags| == 0 then "" else t.tags[0].tag
  }

  function UsedTags(tests: seq<Raw.Test>): (r: seq<string>)
    ensures |r| == |tests| && forall k :: 0 <= k < |tests| ==> r[k] == UsedTag(tests[k])
  {
    seq(|tests|, k requires 0 <= k < |tests| => UsedTag(tests[k]))
  }

  /** The position of the first occurrence of `x`. */
  function FirstIndex(s: seq<string>, x: string): (r: nat)
    requires x in s
    ensures r < |s| && s[r] == x && forall m :: 0 <= m < r ==> s[m] != x
  {
    if s[0] == x then 0 else 1 + FirstIndex(s[1..], x)
  }

  /**
   * The report tags are exactly the distinct tags of `used`, listed in the
   * order in which each first appears in `used`.
   */
  ghost predicate FirstSeenOrder(rs: seq<Report>, used: seq<string>) {
    DistinctTags(rs) &&
    (forall k :: 0 <= k < |rs| ==> rs[k].tag in used) &&
    (forall x :: x in used ==> HasTag(rs, x)) &&
    (forall i, j :: 0 <= i < j < |rs| ==> FirstIndex(used, rs[i].tag) < FirstIndex(used, rs[j].tag))
  }

  // ---------------------------------------------------------------------------
  // one test
  // ---------------------------------------------------------------------------

  /** The side a test contributes, or the error that stops it before its tag matters. */
  function SideFor(test: Raw.Test, states: seq<Raw.State>, env: Environment): Result<Side, Error> {
    var ty :- Classify(test.result.unit);
    var state :- LookupState(states, test.stateId).ToResult(UnresolvedState(test.stateId));
    var csv :- LastCsvAsset(test.assets).ToResult(MissingCsvAsset);
    var result :- ParseTestResult(test, env.parsers);
    BuildSide(ty, test, state, csv, result, env)
  }

  /** A processed test: its side is consistent, of its unit's kind, carries its result, and is placed under its tag. */
  lemma ProcessTestOk(reports: seq<Report>, test: Raw.Test, states: seq<Raw.State>, env: Environment)
    requires ProcessTest(reports, test, states, env).Ok?
    ensures TagOf(test.tags, |reports|) == Ok(UsedTag(test))
    ensures SideFor(test, states, env).Ok?
    ensures var side := SideFor(test, states, env).value;
            SideConsistent(side) && side.stateId == test.stateId &&
            (side.DtfSide? <==> test.result.unit == "VSWR") &&
            (side.RlSide? <==> test.result.unit == "dB") &&
            Some(side.result) == ParseTestResult(test, env.parsers).ToOption() &&
            ProcessTest(reports, test, states, env) == Ok(Place(reports, UsedTag(test), side))
  {
  }

  /** The tag checks: none is always fatal, several only once a report exists. */
  lemma TagChecks(reports: seq<Report>, test: Raw.Test, states: seq<Raw.State>, env: Environment)
    requires Classify(test.result.unit).Ok? && LookupState(states, test.stateId).Some?
    requires LastCsvAsset(test.assets).Some? && ParseTestResult(test, env.parsers).Ok?
    ensures |test.tags| == 0 ==> ProcessTest(reports, test, states, env) == Err(NoTagsOnTest)
    ensures |reports| > 0 && |test.tags| > 1 ==>
              ProcessTest(reports, test, states, env) == Err(MultipleTagsOnTest)
    ensures |reports| == 0 && |test.tags| >= 1 && SideFor(test, states, env).Ok? ==>
              ProcessTest(reports, test, states, env) ==
                Ok([NewReport(test.tags[0].tag, SideFor(test, states, env).value)])
  {
    if |reports| == 0 && |test.tags| >= 1 && SideFor(test, states, env).Ok? {
      var side := SideFor(test, states, env).value;
      assert !HasTag(reports, test.tags[0].tag);
      assert Place(reports, test.tags[0].tag, side) == [NewReport(test.tags[0].tag, side)];
    }
  }

  lemma PlaceKeepsOthers(reports: seq<Report>, tag: string, side: Side)
    ensures var r2 := Place(reports, tag, side);
            |r2| >= |reports| &&
            forall k :: 0 <= k < |reports| ==>
              r2[k].tag == reports[k].tag &&
              r2[k] == if reports[k].tag == tag then ApplySide(reports[k], side) else reports[k]
    ensures !HasTag(reports, tag) ==> Place(reports, tag, side) == reports + [NewReport(tag, side)]
    ensures HasTag(reports, tag) ==> |Place(reports, tag, side)| == |reports|
  {
  }

  lemma FirstIndexAppend(used: seq<string>, x: string, y: string)
    requires y in used + [x]
    ensures y in used ==> FirstIndex(used + [x], y) == FirstIndex(used, y)
    ensures y !in used ==> FirstIndex(used + [x], y) == |used|
  {
    var i := FirstIndex(used + [x], y);
    if y in used {
      var j := FirstIndex(used, y);
      assert (used + [x])[j] == y;
    }
  }

  lemma ApplySideWellFormed(r: Report, side: Side)
    requires SideConsistent(side)
    requires WellFormed(r) || (r.dtfStateId.None? && r.dtfState.None? && r.dtfResult.None? && r.dtfMarker.None? &&
                               r.rlStateId.None? && r.rlState.None? && r.rlResult.None?)
    ensures WellFormed(ApplySide(r, side))
  {
  }

  /** Placing a consistent side keeps every report well formed. */
  lemma PlaceWellFormed(reports: seq<Report>, tag: string, side: Side)
    requires AllWellFormed(reports) && SideConsistent(side)
    ensures AllWellFormed(Place(reports, tag, side))
  {
    var r2 := Place(reports, tag, side);
    PlaceKeepsOthers(reports, tag, side);
    forall k | 0 <= k < |r2| ensures WellFormed(r2[k]) {
      if k < |reports| {
        assert WellFormed(reports[k]);
        if reports[k].tag == tag { ApplySideWellFormed(reports[k], side); }
      } else {
        ApplySideWellFormed(Report(tag, None, None, None, None, None, None, None), side);
      }
    }
  }

  /** Overwriting a side under a known tag keeps the tag order. */
  lemma PlaceExistingOrder(reports: seq<Report>, used: seq<string>, tag: string, side: Side)
    requires FirstSeenOrder(reports, used) && HasTag(reports, tag)
    ensures FirstSeenOrder(Place(reports, tag, side), used + [tag])
  {
    var r2 := Place(reports, tag, side);
    var used2 := used + [tag];
    PlaceKeepsOthers(reports, tag, side);
    assert |r2| == |reports|;
    assert forall k :: 0 <= k < |r2| ==> r2[k].tag == reports[k].tag;
    assert tag in used;
    forall y | y in used ensures FirstIndex(used2, y) == FirstIndex(used, y) {
      FirstIndexAppend(used, tag, y);
    }
    forall x | x in used2 ensures HasTag(r2, x) {
      assert HasTag(reports, x);
      var k :| 0 <= k < |reports| && reports[k].tag == x;
      assert r2[k].tag == x;
    }
  }

  /** Appending a report for an unseen tag keeps every used tag covered. */
  lemma AppendCovers(reports: seq<Report>, used: seq<string>, r: Report)
    requires forall x :: x in used ==> HasTag(reports, x)
    ensures forall x :: x in used + [r.tag] ==> HasTag(reports + [r], x)
  {
    var r2 := reports + [r];
    forall x | x in used + [r.tag] ensures HasTag(r2, x) {
      if x == r.tag {
        assert r2[|reports|].tag == x;
      } else {
        var k :| 0 <= k < |reports| && reports[k].tag == x;
        assert r2[k].tag == x;
      }
    }
  }

  /** Appending a report for an unseen tag keeps the tags in first-seen order. */
  lemma AppendOrdered(reports: seq<Report>, used: seq<string>, r: Report)
    requires forall k :: 0 <= k < |reports| ==> reports[k].tag in used
    requires forall i, j :: 0 <= i < j < |reports| ==> FirstIndex(used, reports[i].tag) < FirstIndex(used, reports[j].tag)
    requires r.tag !in used
    ensures forall i, j :: 0 <= i < j < |reports + [r]| ==>
              FirstIndex(used + [r.tag], (reports + [r])[i].tag) < FirstIndex(used + [r.tag], (reports + [r])[j].tag)
  {
    var r2 := reports + [r];
    var used2 := used + [r.tag];
    forall i, j | 0 <= i < j < |r2| ensures FirstIndex(used2, r2[i].tag) < FirstIndex(used2, r2[j].tag) {
      assert r2[i] == reports[i];
      FirstIndexAppend(used, r.tag, r2[i].tag);
      FirstIndexAppend(used, r.tag, r2[j].tag);
      if j < |reports| {
        assert r2[j] == reports[j];
      }
    }
  }

  /** A report for a tag not seen so far, appended, keeps the first-seen order. */
  lemma PlaceNewOrder(reports: seq<Report>, used: seq<string>, tag: string, side: Side)
    requires FirstSeenOrder(reports, used) && !HasTag(reports, tag)
    ensures FirstSeenOrder(Place(reports, tag, side), used + [tag])
  {
    var r := NewReport(tag, side);
    assert Place(reports, tag, side) == reports + [r];
    assert tag !in used;
    AppendCovers(reports, used, r);
    AppendOrdered(reports, used, r);
    assert forall k :: 0 <= k < |reports + [r]| ==> (reports + [r])[k].tag in used + [tag];
  }

  /** Placing a consistent side keeps every report well formed and the tags in first-seen order. */
  lemma PlacePreserves(reports: seq<Report>, used: seq<string>, tag: string, side: Side)
    requires AllWellFormed(reports) && FirstSeenOrder(reports, used) && SideConsistent(side)
    ensures AllWellFormed(Place(reports, tag, side))
    ensures FirstSeenOrder(Place(reports, tag, side), used + [tag])
  {
    PlaceWellFormed(reports, tag, side);
    if HasTag(reports, tag) {
      PlaceExistingOrder(reports, used, tag, side);
    } else {
      PlaceNewOrder(reports, used, tag, side);
    }
  }

  /**
   * A test whose tag already has a report changes only that report, and in it
   * only the side of the test's kind: last write wins, the tag and the other
   * side stay. A new tag appends one report with only that side.
   */
  lemma MergeOverwritesOneSide(reports: seq<Report>, test: Raw.Test, states: seq<Raw.State>, env: Environment)
    requires ProcessTest(reports, test, states, env).Ok?
    ensures var r2 := ProcessTest(reports, test, states, env).value;
            var tag := UsedTag(test);
            var res := ParseTestResult(test, env.parsers).ToOption();
            |r2| >= |reports| &&
            (forall k :: 0 <= k < |reports| ==> r2[k].tag == reports[k].tag) &&
            (forall k :: 0 <= k < |reports| && reports[k].tag != tag ==> r2[k] == reports[k]) &&
            (forall k :: 0 <= k < |reports| && reports[k].tag == tag && test.result.unit == "VSWR" ==>
               r2[k].rlStateId == reports[k].rlStateId && r2[k].rlState == reports[k].rlState &&
               r2[k].rlResult == reports[k].rlResult &&
               r2[k].dtfStateId == Some(test.stateId) && r2[k].dtfResult == res) &&
            (forall k :: 0 <= k < |reports| && reports[k].tag == tag && test.result.unit == "dB" ==>
               r2[k].dtfStateId == reports[k].dtfStateId && r2[k].dtfState == reports[k].dtfState &&
               r2[k].dtfResult == reports[k].dtfResult && r2[k].dtfMarker == reports[k].dtfMarker &&
               r2[k].rlStateId == Some(test.stateId) && r2[k].rlResult == res)
    ensures var r2 := ProcessTest(reports, test, states, env).value;
            var state := LookupState(states, test.stateId);
            var csv := LastCsvAsset(test.assets);
            state.Some? && csv.Some? &&
            (forall k :: 0 <= k < |r2| && r2[k].tag == UsedTag(test) && test.result.unit == "VSWR" ==>
               r2[k].dtfState.Some? && DtfStateFromRaw(state.value, env.parsers) == Ok(r2[k].dtfState.value) &&
               r2[k].dtfMarker.Some? && MarkerPosition(env, csv.value) == Ok(r2[k].dtfMarker.value)) &&
            (forall k :: 0 <= k < |r2| && r2[k].tag == UsedTag(test) && test.result.unit == "dB" ==>
               r2[k].rlState.Some? && RlStateFromRaw(state.value) == Ok(r2[k].rlState.value))
    ensures var r2 := ProcessTest(reports, test, states, env).value;
            var res := ParseTestResult(test, env.parsers).ToOption();
            !HasTag(reports, UsedTag(test)) ==>
              |r2| == |reports| + 1 && r2[..|reports|] == reports && r2[|reports|].tag == UsedTag(test) &&
              (r2[|reports|].dtfState.Some? <==> test.result.unit == "VSWR") &&
              (r2[|reports|].rlState.Some? <==> test.result.unit == "dB") &&
              var added := r2[|reports|];
              (test.result.unit == "VSWR" ==>
                 added.dtfStateId == Some(test.stateId) && added.dtfResult == res && added.dtfMarker.Some? &&
                 added.rlStateId.None? && added.rlResult.None?) &&
              (test.result.unit == "dB" ==>
                 added.rlStateId == Some(test.stateId) && added.rlResult == res &&
                 added.dtfStateId.None? && added.dtfResult.None? && added.dtfMarker.None?)
  {
    ProcessTestOk(reports, test, states, env);
    SideForProjections(test, states, env);
    var state := LookupState(states, test.stateId).value;
    var csv := LastCsvAsset(test.assets).value;
    OverwriteBySide(reports, ProcessTest(reports, test, states, env).value, UsedTag(test), SideFor(test, states, env).value,
                    test, ParseTestResult(test, env.parsers).ToOption(), DtfStateFromRaw(state, env.parsers),
                    MarkerPosition(env, csv), RlStateFromRaw(state));
  }

  /**
   * The overwrite facts for a placed side whose fields are the given state
   * projections, marker and result.
   */
  lemma OverwriteBySide(reports: seq<Report>, r2: seq<Report>, tag: string, side: Side, test: Raw.Test,
                        res: Option<TestResult>, dtf: Result<DtfState, Error>, marker: Result<F64, Error>,
                        rl: Result<RlState, Error>)
    requires r2 == Place(reports, tag, side)
    requires side.stateId == test.stateId && Some(side.result) == res
    requires (side.DtfSide? <==> test.result.unit == "VSWR") && (side.RlSide? <==> test.result.unit == "dB")
    requires side.DtfSide? ==> dtf == Ok(side.dtfState) && marker == Ok(side.marker)
    requires side.RlSide? ==> rl == Ok(side.rlState)
    ensures |r2| >= |reports| &&
            (forall k :: 0 <= k < |reports| ==> r2[k].tag == reports[k].tag) &&
            (forall k :: 0 <= k < |reports| && reports[k].tag != tag ==> r2[k] == reports[k]) &&
            (forall k :: 0 <= k < |reports| && reports[k].tag == tag && test.result.unit == "VSWR" ==>
               r2[k].rlStateId == reports[k].rlStateId && r2[k].rlState == reports[k].rlState &&
               r2[k].rlResult == reports[k].rlResult &&
               r2[k].dtfStateId == Some(test.stateId) && r2[k].dtfResult == res) &&
            (forall k :: 0 <= k < |reports| && reports[k].tag == tag && test.result.unit == "dB" ==>
               r2[k].dtfStateId == reports[k].dtfStateId && r2[k].dtfState == reports[k].dtfState &&
               r2[k].dtfResult == reports[k].dtfResult && r2[k].dtfMarker == reports[k].dtfMarker &&
               r2[k].rlStateId == Some(test.stateId) && r2[k].rlResult == res)
    ensures (forall k :: 0 <= k < |r2| && r2[k].tag == tag && test.result.unit == "VSWR" ==>
               r2[k].dtfState.Some? && dtf == Ok(r2[k].dtfState.value) &&
               r2[k].dtfMarker.Some? && marker == Ok(r2[k].dtfMarker.value)) &&
            (forall k :: 0 <= k < |r2| && r2[k].tag == tag && test.result.unit == "dB" ==>
               r2[k].rlState.Some? && rl == Ok(r2[k].rlState.value))
    ensures !HasTag(reports, tag) ==>
              |r2| == |reports| + 1 && r2[..|reports|] == reports && r2[|reports|].tag == tag &&
              (r2[|reports|].dtfState.Some? <==> test.result.unit == "VSWR") &&
              (r2[|reports|].rlState.Some? <==> test.result.unit == "dB") &&
              var added := r2[|reports|];
              (test.result.unit == "VSWR" ==>
                 added.dtfStateId == Some(test.stateId) && added.dtfResult == res && added.dtfMarker.Some? &&
                 added.rlStateId.None? && added.rlResult.None?) &&
              (test.result.unit == "dB" ==>
                 added.rlStateId == Some(test.stateId) && added.rlResult == res &&
                 added.dtfStateId.None? && added.dtfResult.None? && added.dtfMarker.None?)
  {
    PlaceOverwritesOneSide(reports, tag, side);
    PlaceSideFields(reports, tag, side);
  }

  /** Placing a side changes only that side of the reports under the tag. */
  lemma PlaceOverwritesOneSide(reports: seq<Report>, tag: string, side: Side)
    ensures var r2 := Place(reports, tag, side);
            |r2| >= |reports| &&
            (forall k :: 0 <= k < |reports| ==> r2[k].tag == reports[k].tag) &&
            (forall k :: 0 <= k < |reports| && reports[k].tag != tag ==> r2[k] == reports[k]) &&
            (forall k :: 0 <= k < |reports| && reports[k].tag == tag && side.DtfSide? ==>
               r2[k].rlStateId == reports[k].rlStateId && r2[k].rlState == reports[k].rlState &&
               r2[k].rlResult == reports[k].rlResult &&
               r2[k].dtfStateId == Some(side.stateId) && r2[k].dtfResult == Some(side.result)) &&
            (forall k :: 0 <= k < |reports| && reports[k].tag == tag && side.RlSide? ==>
               r2[k].dtfStateId == reports[k].dtfStateId && r2[k].dtfState == reports[k].dtfState &&
               r2[k].dtfResult == reports[k].dtfResult && r2[k].dtfMarker == reports[k].dtfMarker &&
               r2[k].rlStateId == Some(side.stateId) && r2[k].rlResult == Some(side.result))
    ensures var r2 := Place(reports, tag, side);
            !HasTag(reports, tag) ==>
              |r2| == |reports| + 1 && r2[..|reports|] == reports && r2[|reports|].tag == tag &&
              (r2[|reports|].dtfState.Some? <==> side.DtfSide?) &&
              (r2[|reports|].rlState.Some? <==> side.RlSide?) &&
              var added := r2[|reports|];
              (side.DtfSide? ==>
                 added.dtfStateId == Some(side.stateId) && added.dtfResult == Some(side.result) &&
                 added.dtfMarker == Some(side.marker) && added.rlStateId.None? && added.rlResult.None?) &&
              (side.RlSide? ==>
                 added.rlStateId == Some(side.stateId) && added.rlResult == Some(side.result) &&
                 added.dtfStateId.None? && added.dtfResult.None? && added.dtfMarker.None?)
  {
    PlaceKeepsOthers(reports, tag, side);
  }

  /** Every report under the tag carries the placed side. */
  lemma PlaceSideFields(reports: seq<Report>, tag: string, side: Side)
    ensures var r2 := Place(reports, tag, side);
            forall k :: 0 <= k < |r2| && r2[k].tag == tag ==>
              (side.DtfSide? ==> r2[k].dtfState == Some(side.dtfState) && r2[k].dtfMarker == Some(side.marker)) &&
              (side.RlSide? ==> r2[k].rlState == Some(side.rlState))
  {
    var r2 := Place(reports, tag, side);
    PlaceKeepsOthers(reports, tag, side);
    forall k | 0 <= k < |r2| && r2[k].tag == tag
      ensures (side.DtfSide? ==> r2[k].dtfState == Some(side.dtfState) && r2[k].dtfMarker == Some(side.marker)) &&
              (side.RlSide? ==> r2[k].rlState == Some(side.rlState))
    {
      if k < |reports| {
        assert r2[k] == ApplySide(reports[k], side);
      } else {
        assert r2[k] == NewReport(tag, side);
      }
    }
  }

  /** The side a test contributes carries the projection of its state and, for DTF, the marker of its asset. */
  lemma SideForProjections(test: Raw.Test, states: seq<Raw.State>, env: Environment)
    requires SideFor(test, states, env).Ok?
    ensures var side := SideFor(test, states, env).value;
            var state := LookupState(states, test.stateId);
            var csv := LastCsvAsset(test.assets);
            state.Some? && csv.Some? &&
            (side.DtfSide? ==>
               DtfStateFromRaw(state.value, env.parsers) == Ok(side.dtfState) && MarkerPosition(env, csv.value) == Ok(side.marker)) &&
            (side.RlSide? ==> RlStateFromRaw(state.value) == Ok(side.rlState))
  {
  }

  lemma PlaceDistinct(reports: seq<Report>, tag: string, side: Side)
    requires DistinctTags(reports)
    ensures DistinctTags(Place(reports, tag, side)) && HasTag(Place(reports, tag, side), tag)
  {
    var r2 := Place(reports, tag, side);
    PlaceKeepsOthers(reports, tag, side);
    if HasTag(reports, tag) {
      var k :| 0 <= k < |reports| && reports[k].tag == tag;
      assert r2[k].tag == tag;
    } else {
      assert r2[|reports|].tag == tag;
    }
  }

  /**
   * A processed test leaves its side populated in the report for its tag, and
   * no side of any report disappears.
   */
  lemma SideRecorded(reports: seq<Report>, test: Raw.Test, states: seq<Raw.State>, env: Environment)
    requires DistinctTags(reports) && ProcessTest(reports, test, states, env).Ok?
    ensures var r2 := ProcessTest(reports, test, states, env).value;
            DistinctTags(r2) && HasTag(r2, UsedTag(test)) && |r2| >= |reports| &&
            (HasTag(reports, UsedTag(test)) ==> |r2| == |reports|) &&
            (forall k :: 0 <= k < |r2| && r2[k].tag == UsedTag(test) ==>
               (test.result.unit == "VSWR" ==> r2[k].dtfState.Some?) &&
               (test.result.unit == "dB" ==> r2[k].rlState.Some?)) &&
            (forall k :: 0 <= k < |reports| ==>
               r2[k].tag == reports[k].tag &&
               (reports[k].dtfState.Some? ==> r2[k].dtfState.Some?) &&
               (reports[k].rlState.Some? ==> r2[k].rlState.Some?))
  {
    ProcessTestOk(reports, test, states, env);
    PlaceRecordsSide(reports, UsedTag(test), SideFor(test, states, env).value);
  }

  /** Placing a side leaves it under its tag, keeps tags distinct, and removes no side. */
  lemma PlaceRecordsSide(reports: seq<Report>, tag: string, side: Side)
    requires DistinctTags(reports)
    ensures var r2 := Place(reports, tag, side);
            DistinctTags(r2) && HasTag(r2, tag) && |r2| >= |reports| &&
            (HasTag(reports, tag) ==> |r2| == |reports|) &&
            (forall k :: 0 <= k < |r2| && r2[k].tag == tag ==>
               (side.DtfSide? ==> r2[k].dtfState.Some?) && (side.RlSide? ==> r2[k].rlState.Some?)) &&
            (forall k :: 0 <= k < |reports| ==>
               r2[k].tag == reports[k].tag &&
               (reports[k].dtfState.Some? ==> r2[k].dtfState.Some?) &&
               (reports[k].rlState.Some? ==> r2[k].rlState.Some?))
  {
    PlaceKeepsOthers(reports, tag, side);
    PlaceDistinct(reports, tag, side);
    PlaceSideFields(reports, tag, side);
  }

  /** A DTF test and an RL test for the same tag, in either order, leave that one report with both sides. */
  lemma DtfAndRlMerge(reports: seq<Report>, t1: Raw.Test, t2: Raw.Test, states: seq<Raw.State>, env: Environment)
    requires DistinctTags(reports)
    requires UsedTag(t1) == UsedTag(t2)
    requires {t1.result.unit, t2.result.unit} == {"VSWR", "dB"}
    requires ProcessTest(reports, t1, states, env).Ok?
    requires ProcessTest(ProcessTest(reports, t1, states, env).value, t2, states, env).Ok?
    ensures var r2 := ProcessTest(ProcessTest(reports, t1, states, env).value, t2, states, env).value;
            DistinctTags(r2) && HasTag(r2, UsedTag(t1)) &&
            forall k :: 0 <= k < |r2| && r2[k].tag == UsedTag(t1) ==> r2[k].dtfState.Some? && r2[k].rlState.Some?
  {
    var r1 := ProcessTest(reports, t1, states, env).value;
    var r2 := ProcessTest(r1, t2, states, env).value;
    var tag := UsedTag(t1);
    SideRecorded(reports, t1, states, env);
    SideRecorded(r1, t2, states, env);
    assert t1.result.unit == "VSWR" || t1.result.unit == "dB" by {
      assert t1.result.unit in {t1.result.unit, t2.result.unit};
    }
    assert t2.result.unit != t1.result.unit by {
      assert "VSWR" in {t1.result.unit, t2.result.unit} && "dB" in {t1.result.unit, t2.result.unit};
    }
    assert |r2| == |r1|;
    forall k | 0 <= k < |r2| && r2[k].tag == tag
      ensures r2[k].dtfState.Some? && r2[k].rlState.Some?
    {
      assert r1[k].tag == tag;
    }
  }


  // ---------------------------------------------------------------------------
  // all tests
  // ---------------------------------------------------------------------------

  lemma ProcessTestsStep(tests: seq<Raw.Test>, states: seq<Raw.State>, env: Environment)
    requires tests != [] && ProcessTests(tests, states, env).Ok?
    ensures var n := |tests| - 1;
            ProcessTests(tests[..n], states, env).Ok? &&
            ProcessTest(ProcessTests(tests[..n], states, env).value, tests[n], states, env) ==
              ProcessTests(tests, states, env)
  {
  }

  lemma ProcessTestsStepOk(tests: seq<Raw.Test>, states: seq<Raw.State>, env: Environment)
    requires tests != [] && ProcessTests(tests, states, env).Ok?
    ensures ProcessTests(tests[..|tests| - 1], states, env).Ok?
    ensures ProcessTest(ProcessTests(tests[..|tests| - 1], states, env).value, tests[|tests| - 1], states, env).Ok?
  {
  }

  /** One processed test keeps the report invariants, extended by the test's tag. */
  lemma ProcessTestPreserves(reports: seq<Report>, used: seq<string>, test: Raw.Test,
                             states: seq<Raw.State>, env: Environment)
    requires AllWellFormed(reports) && FirstSeenOrder(reports, used)
    requires ProcessTest(reports, test, states, env).Ok?
    ensures AllWellFormed(ProcessTest(reports, test, states, env).value)
    ensures FirstSeenOrder(ProcessTest(reports, test, states, env).value, used + [UsedTag(test)])
  {
    ProcessTestOk(reports, test, states, env);
    PlacePreserves(reports, used, UsedTag(test), SideFor(test, states, env).value);
  }

  /**
   * After every processed test: every report is well formed and the report
   * tags are the distinct tags used so far, in first-seen order.
   */
  lemma {:induction false} ProcessTestsInvariant(tests: seq<Raw.Test>, states: seq<Raw.State>, env: Environment)
    requires ProcessTests(tests, states, env).Ok?
    ensures AllWellFormed(ProcessTests(tests, states, env).value)
    ensures FirstSeenOrder(ProcessTests(tests, states, env).value, UsedTags(tests))
  {
    if tests != [] {
      var n := |tests| - 1;
      var prefix := tests[..n];
      ProcessTestsStep(tests, states, env);
      ProcessTestsInvariant(prefix, states, env);
      var reports := ProcessTests(prefix, states, env).value;
      ProcessTestPreserves(reports, UsedTags(prefix), tests[n], states, env);
      UsedTagsStep(tests);
    }
  }

  lemma ProcessTestTagged(reports: seq<Report>, test: Raw.Test, states: seq<Raw.State>, env: Environment)
    requires ProcessTest(reports, test, states, env).Ok?
    ensures |test.tags| >= 1
  {
  }

  /** Every test of a successful run carried at least one tag. */
  lemma {:induction false} ProcessTestsTagged(tests: seq<Raw.Test>, states: seq<Raw.State>, env: Environment, k: nat)
    requires ProcessTests(tests, states, env).Ok? && k < |tests|
    ensures |tests[k].tags| >= 1
  {
    var n := |tests| - 1;
    ProcessTestsStepOk(tests, states, env);
    if k == n {
      ProcessTestTagged(ProcessTests(tests[..n], states, env).value, tests[n], states, env);
    } else {
      ProcessTestsTagged(tests[..n], states, env, k);
      assert tests[..n][k] == tests[k];
    }
  }

  lemma UsedTagsStep(tests: seq<Raw.Test>)
    requires tests != []
    ensures UsedTags(tests) == UsedTags(tests[..|tests| - 1]) + [UsedTag(tests[|tests| - 1])]
  {
  }

  ghost function TagSet(rs: seq<Report>): set<string> {
    set k | 0 <= k < |rs| :: rs[k].tag
  }

  lemma {:induction false} DistinctTagCount(rs: seq<Report>)
    requires DistinctTags(rs)
    ensures |TagSet(rs)| == |rs|
  {
    if rs != [] {
      var n := |rs| - 1;
      DistinctTagCount(rs[..n]);
      assert TagSet(rs) == TagSet(rs[..n]) + {rs[n].tag} by {
        forall x | x in TagSet(rs) ensures x in TagSet(rs[..n]) + {rs[n].tag} {
          var k :| 0 <= k < |rs| && rs[k].tag == x;
          if k < n { assert rs[..n][k].tag == x; }
        }
      }
      assert rs[n].tag !in TagSet(rs[..n]);
    }
  }

  /** The number of reports is the number of distinct tags the tests used. */
  lemma ReportCountIsDistinctTags(tests: seq<Raw.Test>, states: seq<Raw.State>, env: Environment)
    requires ProcessTests(tests, states, env).Ok?
    ensures |ProcessTests(tests, states, env).value| == |set x | x in UsedTags(tests)|
  {
    var rs := ProcessTests(tests, states, env).value;
    ProcessTestsInvariant(tests, states, env);
    DistinctTagCount(rs);
    assert TagSet(rs) == set x | x in UsedTags(tests);
  }

  // ---------------------------------------------------------------------------
  // the whole bundle
  // ---------------------------------------------------------------------------

  /** What a successful reconciliation guarantees about its output. */
  lemma ReconcileOk(input: Raw.Bundle, env: Environment)
    requires Reconcile(input, env).Ok?
    ensures var (sweep, warnings) := Reconcile(input, env).value;
            var used := UsedTags(input.reports[0].tests);
            |input.reports| >= 1 &&
            |sweep.devices| == |input.devices| &&
            (forall i :: 0 <= i < |input.devices| ==> DeviceFromRaw(input.devices[i], env.parsers) == Ok(sweep.devices[i])) &&
            WarnsForMultiDetailDevices(input.devices, warnings) &&
            AllWellFormed(sweep.reports) &&
            FirstSeenOrder(sweep.reports, used) &&
            |sweep.reports| == |set x | x in used|
  {
    WarningsForMultiDetailDevices(input.devices, env.parsers);
    ProcessTestsInvariant(input.reports[0].tests, input.states, env);
    ReportCountIsDistinctTags(input.reports[0].tests, input.states, env);
  }

  /** A test with a unit other than "VSWR" or "dB" aborts the whole run with no partial result. */
  lemma UnknownUnitAbortsRun(input: Raw.Bundle, env: Environment, i: nat)
    requires NormalizeDevices(input.devices, env.parsers).Ok? && |input.reports| >= 1
    requires i < |input.reports[0].tests|
    requires ProcessTests(input.reports[0].tests[..i], input.states, env).Ok?
    requires input.reports[0].tests[i].result.unit !in {"VSWR", "dB"}
    ensures Reconcile(input, env) == Err(UnknownTestUnit(input.reports[0].tests[i].result.unit))
  {
    var tests := input.reports[0].tests;
    var unit := tests[i].result.unit;
    assert Classify(unit) == Err(UnknownTestUnit(unit));
    var before := ProcessTests(tests[..i], input.states, env).value;
    assert ProcessTest(before, tests[i], input.states, env) == Err(UnknownTestUnit(unit));
    ProcessTestsPrefix(tests, i, input.states, env);
    ProcessTestsErrPersists(tests, i + 1, input.states, env);
    assert ProcessTests(tests, input.states, env) == Err(UnknownTestUnit(unit));
  }
}
