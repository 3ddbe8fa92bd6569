/**
 * The DTF distance marker, read from a fixed cell of a CSV sidecar file that
 * sits next to the report file named by the first process argument.
 */
module Marker {
  import opened Wrappers
  import opened StdText
  import opened Collaborators
  import opened IpaReport

  const REPORT_FILE_NAME: string := "Report.xml"
  /** The marker sits on the 14th line ... */
  const MARKER_LINE: nat := 13
  /** ... in its 3rd comma-separated field. */
  const MARKER_FIELD: nat := 2

  /** The directory of the report file: its path with the file name trimmed off the end. */
  function AssetPath(reportPath: string, asset: string): (r: string)
    ensures |asset| <= |r| && r[|r| - |asset|..] == asset
    ensures var dir := r[..|r| - |asset|]; |dir| <= |reportPath| && dir == reportPath[..|dir|]
    ensures !EndsWith(r[..|r| - |asset|], REPORT_FILE_NAME)
  {
    TrimEndMatches(reportPath, REPORT_FILE_NAME) + asset
  }

  /** A report path that ends in the report file name resolves assets beside it. */
  lemma AssetPathBesideReport(dir: string, asset: string)
    requires !EndsWith(dir, REPORT_FILE_NAME)
    ensures AssetPath(dir + REPORT_FILE_NAME, asset) == dir + asset
  {
    var s := dir + REPORT_FILE_NAME;
    assert s[|s| - |REPORT_FILE_NAME|..] == REPORT_FILE_NAME;
    assert s[..|s| - |REPORT_FILE_NAME|] == dir;
    assert TrimEndMatches(s, REPORT_FILE_NAME) == TrimEndMatches(dir, REPORT_FILE_NAME) == dir;
  }

  /**
   * The text of the marker cell: field index 2 of line index 13. A file with
   * too few lines, or a line with too few fields, is malformed.
   */
  function MarkerField(text: string): (r: Result<string, Error>)
    ensures r.Ok? <==> |Lines(text)| > MARKER_LINE && |Split(Lines(text)[MARKER_LINE], ',')| > MARKER_FIELD
    ensures r.Ok? ==> r.value == Split(Lines(text)[MARKER_LINE], ',')[MARKER_FIELD] && ',' !in r.value
    ensures r.Err? ==> r.error == MalformedAsset
  {
    var lines := Lines(text);
    if |lines| <= MARKER_LINE then Err(MalformedAsset)
    else
      var fields := Split(lines[MARKER_LINE], ',');
      if |fields| <= MARKER_FIELD then Err(MalformedAsset) else Ok(fields[MARKER_FIELD])
  }

  /**
   * For a file written as newline-terminated lines: fewer than 14 lines, or
   * fewer than 3 fields on the 14th, is malformed; otherwise the cell is field
   * index 2 of line index 13.
   */
  lemma {:induction false} MarkerFieldOfLines(ls: seq<string>)
    requires forall k :: 0 <= k < |ls| ==> PlainLine(ls[k])
    ensures MarkerField(Join(ls + [""], '\n')) ==
              if |ls| <= MARKER_LINE || |Split(ls[MARKER_LINE], ',')| <= MARKER_FIELD
              then Err(MalformedAsset)
              else Ok(Split(ls[MARKER_LINE], ',')[MARKER_FIELD])
  {
    LinesOfTerminated(ls);
  }

  /** The same rule for a file whose lines end in `\r\n`: the carriage returns are not part of the cell. */
  lemma {:induction false} MarkerFieldOfCrlfLines(ls: seq<string>)
    requires forall k :: 0 <= k < |ls| ==> PlainLine(ls[k])
    ensures MarkerField(Join(Crlf(ls) + [""], '\n')) ==
              if |ls| <= MARKER_LINE || |Split(ls[MARKER_LINE], ',')| <= MARKER_FIELD
              then Err(MalformedAsset)
              else Ok(Split(ls[MARKER_LINE], ',')[MARKER_FIELD])
  {
    LinesOfCrlfTerminated(ls);
  }

  /** The same rule for a file whose last line has no line feed after it. */
  lemma {:induction false} MarkerFieldOfUnterminatedLines(ls: seq<string>)
    requires |ls| >= 1 && ls[|ls| - 1] != ""
    requires forall k :: 0 <= k < |ls| ==> PlainLine(ls[k])
    ensures MarkerField(Join(ls, '\n')) ==
              if |ls| <= MARKER_LINE || |Split(ls[MARKER_LINE], ',')| <= MARKER_FIELD
              then Err(MalformedAsset)
              else Ok(Split(ls[MARKER_LINE], ',')[MARKER_FIELD])
  {
    LinesOfUnterminated(ls);
  }

  /** A 14th line of "1,2,12.34,5" yields the cell "12.34". */
  lemma MarkerFieldExample(ls: seq<string>)
    requires |ls| > MARKER_LINE && ls[MARKER_LINE] == "1,2,12.34,5"
    requires forall k :: 0 <= k < |ls| ==> PlainLine(ls[k])
    ensures MarkerField(Join(ls + [""], '\n')) == Ok("12.34")
  {
    MarkerFieldOfLines(ls);
    SplitExampleLine();
  }

  /** The example line splits into its four fields. */
  lemma SplitExampleLine()
    ensures Split("1,2,12.34,5", ',') == ["1", "2", "12.34", "5"]
  {
    var pieces := ["1", "2", "12.34", "5"];
    assert Join(pieces[3..], ',') == "5";
    assert Join(pieces[2..], ',') == "12.34,5" by {
      assert pieces[2..][1..] == pieces[3..];
    }
    assert Join(pieces[1..], ',') == "2,12.34,5" by {
      assert pieces[1..][1..] == pieces[2..];
    }
    assert Join(pieces, ',') == "1,2,12.34,5";
    assert forall k :: 0 <= k < |pieces| ==> ',' !in pieces[k];
    SplitJoin(pieces, ',');
  }

  /**
   * `read_csv_marker_position`: the marker cell of the asset file beside the
   * report, parsed as a float. No report path, an unreadable file, a malformed
   * file and an unparsable cell are each a failure.
   */
  function MarkerPosition(env: Environment, asset: string): (r: Result<F64, Error>)
    ensures r.Ok? ==> |env.args| >= 2
    ensures r.Ok? ==>
              var text := env.readFile(AssetPath(env.args[1], asset));
              text.Some? && MarkerField(text.value).Ok? &&
              env.parsers.float(MarkerField(text.value).value) == Some(r.value)
    ensures |env.args| < 2 ==> r == Err(MissingReportPath)
    ensures |env.args| >= 2 ==>
              var path := AssetPath(env.args[1], asset);
              var text := env.readFile(path);
              (text.None? ==> r == Err(AssetReadError(path))) &&
              (text.Some? && MarkerField(text.value).Err? ==> r == Err(MalformedAsset)) &&
              (text.Some? && MarkerField(text.value).Ok? && env.parsers.float(MarkerField(text.value).value).None? ==>
                 r == Err(MarkerParse(MarkerField(text.value).value))) &&
              (text.Some? && MarkerField(text.value).Ok? && env.parsers.float(MarkerField(text.value).value).Some? ==>
                 r == Ok(env.parsers.float(MarkerField(text.value).value).value))
  {
    if |env.args| < 2 then Err(MissingReportPath)
    else
      var path := AssetPath(env.args[1], asset);
      var text :- env.readFile(path).ToResult(AssetReadError(path));
      var cell :- MarkerField(text);
      env.parsers.float(cell).ToResult(MarkerParse(cell))
  }

  /** End to end: the example sidecar file yields the parsed value of "12.34". */
  lemma MarkerPositionExample(env: Environment, asset: string, ls: seq<string>, v: F64)
    requires |env.args| >= 2
    requires env.readFile(AssetPath(env.args[1], asset)) == Some(Join(ls + [""], '\n'))
    requires |ls| > MARKER_LINE && ls[MARKER_LINE] == "1,2,12.34,5"
    requires forall k :: 0 <= k < |ls| ==> PlainLine(ls[k])
    requires env.parsers.float("12.34") == Some(v)
    ensures MarkerPosition(env, asset) == Ok(v)
  {
    MarkerFieldExample(ls);
  }
}
