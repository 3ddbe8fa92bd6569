/**
 * The parts of Rust's `str` and integer/boolean `FromStr` behaviour that the
 * report code relies on, written out on `seq<char>`.
 */
module StdText {
  import opened Wrappers

  const MAX_U32: nat := 0xFFFF_FFFF
  const MAX_U64: nat := 0xFFFF_FFFF_FFFF_FFFF

  type U32 = n: nat | n <= MAX_U32
  type U64 = n: nat | n <= MAX_U64

  // ---------------------------------------------------------------------------
  // split / join on one separator character
  // ---------------------------------------------------------------------------

  /** The pieces joined back together with `sep` between them. */
  function Join(parts: seq<string>, sep: char): string
    requires |parts| >= 1
  {
    if |parts| == 1 then parts[0] else parts[0] + [sep] + Join(parts[1..], sep)
  }

  /** How often `c` occurs in `s`. */
  function Occurrences(s: string, c: char): nat {
    if s == [] then 0 else (if s[0] == c then 1 else 0) + Occurrences(s[1..], c)
  }

  /**
   * `s.split(sep)`: there is one piece more than there are separators, no
   * piece contains the separator, and joining the pieces with the separator
   * gives `s` back. The last piece is empty exactly when `s` is empty or ends
   * with the separator.
   */
  function Split(s: string, sep: char): (r: seq<string>)
    ensures |r| == Occurrences(s, sep) + 1
    ensures forall k :: 0 <= k < |r| ==> sep !in r[k]
    ensures Join(r, sep) == s
    ensures r[|r| - 1] == [] <==> s == [] || s[|s| - 1] == sep
  {
    if s == [] then [""]
    else
      var rest := Split(s[1..], sep);
      if s[0] == sep then [""] + rest
      else
        var r := [[s[0]] + rest[0]] + rest[1..];
        assert r[1..] == rest[1..];
        assert s == [s[0]] + s[1..];
        r
  }

  lemma {:induction false} SplitWithoutSeparator(a: string, sep: char)
    requires sep !in a
    ensures Split(a, sep) == [a]
  {
    if a != [] {
      SplitWithoutSeparator(a[1..], sep);
      assert a == [a[0]] + a[1..];
    }
  }

  lemma {:induction false} SplitAfterPiece(a: string, b: string, sep: char)
    requires sep !in a
    ensures Split(a + [sep] + b, sep) == [a] + Split(b, sep)
  {
    var s := a + [sep] + b;
    if a == [] {
      assert s[0] == sep && s[1..] == b;
    } else {
      assert s[0] == a[0] != sep;
      assert s[1..] == a[1..] + [sep] + b;
      SplitAfterPiece(a[1..], b, sep);
      var rest := Split(s[1..], sep);
      assert rest == [a[1..]] + Split(b, sep);
      assert Split(s, sep) == [[a[0]] + rest[0]] + rest[1..];
      assert rest[1..] == Split(b, sep);
      assert [a[0]] + a[1..] == a;
    }
  }

  /** Splitting a joined list of separator-free pieces gives the pieces back. */
  lemma {:induction false} SplitJoin(parts: seq<string>, sep: char)
    requires |parts| >= 1
    requires forall k :: 0 <= k < |parts| ==> sep !in parts[k]
    ensures Split(Join(parts, sep), sep) == parts
  {
    if |parts| == 1 {
      SplitWithoutSeparator(parts[0], sep);
    } else {
      SplitJoin(parts[1..], sep);
      SplitAfterPiece(parts[0], Join(parts[1..], sep), sep);
      assert parts == [parts[0]] + parts[1..];
    }
  }

  // ---------------------------------------------------------------------------
  // lines
  // ---------------------------------------------------------------------------

  /** One carriage return before a line feed belongs to the line ending. */
  function DropCr(line: string): string {
    if |line| > 0 && line[|line| - 1] == '\r' then line[..|line| - 1] else line
  }

  /**
   * `s.lines()`: the text between line feeds, each without a `\r` that stood
   * right before its `\n`; a final line feed does not start an empty line, so
   * there is one line per line feed, plus one for unterminated trailing text.
   */
  function Lines(s: string): (r: seq<string>)
    ensures forall k :: 0 <= k < |r| ==> '\n' !in r[k]
    ensures |r| == Occurrences(s, '\n') + (if s == [] || s[|s| - 1] == '\n' then 0 else 1)
  {
    var parts := Split(s, '\n');
    var last := parts[|parts| - 1];
    DropCrEach(parts[..|parts| - 1]) + (if last == "" then [] else [last])
  }

  /** Every line without its carriage return. */
  function DropCrEach(ls: seq<string>): (r: seq<string>)
    ensures |r| == |ls| && forall k :: 0 <= k < |ls| ==> r[k] == DropCr(ls[k])
  {
    seq(|ls|, k requires 0 <= k < |ls| => DropCr(ls[k]))
  }

  /** A line that does not end in a carriage return. */
  predicate PlainLine(line: string) {
    '\n' !in line && (|line| == 0 || line[|line| - 1] != '\r')
  }

  /** A text written as lines each terminated by `\n` reads back as those lines. */
  lemma {:induction false} LinesOfTerminated(ls: seq<string>)
    requires forall k :: 0 <= k < |ls| ==> PlainLine(ls[k])
    ensures Lines(Join(ls + [""], '\n')) == ls
  {
    var parts := ls + [""];
    forall k | 0 <= k < |parts| ensures '\n' !in parts[k] {
      if k < |ls| { assert PlainLine(ls[k]); }
    }
    SplitJoin(parts, '\n');
    LinesOfPieces(Join(parts, '\n'), parts);
    forall k | 0 <= k < |ls| ensures DropCr(ls[k]) == ls[k] {
      assert PlainLine(ls[k]);
    }
    assert parts[..|ls|] == ls;
    assert DropCrEach(ls) == ls;
  }

  /** The same lines, each terminated by `\r\n`, read back as those lines. */
  lemma {:induction false} LinesOfCrlfTerminated(ls: seq<string>)
    requires forall k :: 0 <= k < |ls| ==> PlainLine(ls[k])
    ensures Lines(Join(Crlf(ls) + [""], '\n')) == ls
  {
    var parts := Crlf(ls) + [""];
    forall k | 0 <= k < |parts| ensures '\n' !in parts[k] {
      if k < |ls| { assert PlainLine(ls[k]); assert parts[k] == ls[k] + "\r"; }
    }
    SplitJoin(parts, '\n');
    LinesOfPieces(Join(parts, '\n'), parts);
    forall k | 0 <= k < |ls| ensures DropCr(parts[k]) == ls[k] {
      assert parts[k] == ls[k] + "\r";
    }
    assert DropCrEach(parts[..|ls|]) == ls;
  }

  /** Every line with a carriage return appended. */
  function Crlf(ls: seq<string>): (r: seq<string>)
    ensures |r| == |ls| && forall k :: 0 <= k < |ls| ==> r[k] == ls[k] + "\r"
  {
    seq(|ls|, k requires 0 <= k < |ls| => ls[k] + "\r")
  }

  /** Lines joined by `\n` with no line feed after a non-empty last line read back as those lines. */
  lemma {:induction false} LinesOfUnterminated(ls: seq<string>)
    requires |ls| >= 1 && ls[|ls| - 1] != ""
    requires forall k :: 0 <= k < |ls| ==> PlainLine(ls[k])
    ensures Lines(Join(ls, '\n')) == ls
  {
    var s := Join(ls, '\n');
    var n := |ls| - 1;
    assert Split(s, '\n') == ls by {
      forall k | 0 <= k < |ls| ensures '\n' !in ls[k] {
        assert PlainLine(ls[k]);
      }
      SplitJoin(ls, '\n');
    }
    LinesOfPieces(s, ls);
    assert DropCrEach(ls[..n]) == ls[..n] by {
      forall k | 0 <= k < n ensures DropCr(ls[k]) == ls[k] {
        assert PlainLine(ls[k]);
      }
    }
    assert ls[..n] + [ls[n]] == ls;
  }


  /** The lines are the pieces between line feeds, carriage returns dropped, an empty last piece omitted. */
  lemma LinesOfPieces(s: string, parts: seq<string>)
    requires Split(s, '\n') == parts
    ensures var n := |parts| - 1;
            Lines(s) == DropCrEach(parts[..n]) + (if parts[n] == "" then [] else [parts[n]])
  {
  }


  // ---------------------------------------------------------------------------
  // suffixes
  // ---------------------------------------------------------------------------

  /** `s.ends_with(suffix)`: the last `|suffix|` characters of `s` are the suffix. */
  predicate EndsWith(s: string, suffix: string) {
    |suffix| <= |s| && s[|s| - |suffix|..] == suffix
  }

  /** Any text followed by the suffix ends with it. */
  lemma EndsWithAppend(d: string, suffix: string)
    ensures EndsWith(d + suffix, suffix)
  {
    assert (d + suffix)[|d|..] == suffix;
  }

  /** `k` copies of `pat`, one after another. */
  function Repeat(pat: string, k: nat): string {
    if k == 0 then [] else Repeat(pat, k - 1) + pat
  }

  /**
   * `s.trim_end_matches(pat)`: removes the pattern from the end as often as it
   * is there; the result is a prefix of `s` that no longer ends with it, and an
   * empty pattern removes nothing.
   */
  function TrimEndMatches(s: string, pat: string): (r: string)
    ensures |r| <= |s| && r == s[..|r|]
    ensures pat != [] ==> !EndsWith(r, pat)
    ensures pat == [] ==> r == s
    decreases |s|
  {
    if pat != [] && EndsWith(s, pat) then TrimEndMatches(s[..|s| - |pat|], pat) else s
  }

  /** One more trailing copy of the pattern is trimmed like the rest. */
  lemma TrimEndMatchesStep(s: string, pat: string)
    requires pat != []
    ensures TrimEndMatches(s + pat, pat) == TrimEndMatches(s, pat)
  {
    EndsWithAppend(s, pat);
    assert (s + pat)[..|s + pat| - |pat|] == s;
  }

  /** Exactly the trailing copies of the pattern are removed, and nothing before them. */
  lemma {:induction false} TrimEndMatchesRepeat(d: string, pat: string, k: nat)
    requires pat != [] && !EndsWith(d, pat)
    ensures TrimEndMatches(d + Repeat(pat, k), pat) == d
  {
    if k == 0 {
      assert d + Repeat(pat, k) == d;
    } else {
      var shorter := d + Repeat(pat, k - 1);
      calc {
        TrimEndMatches(d + Repeat(pat, k), pat);
        { RepeatAppend(d, pat, k); }
        TrimEndMatches(shorter + pat, pat);
        { TrimEndMatchesStep(shorter, pat); }
        TrimEndMatches(shorter, pat);
        { TrimEndMatchesRepeat(d, pat, k - 1); }
        d;
      }
    }
  }

  lemma RepeatAppend(d: string, pat: string, k: nat)
    requires k > 0
    ensures d + Repeat(pat, k) == (d + Repeat(pat, k - 1)) + pat
  {
  }


  // ---------------------------------------------------------------------------
  // unsigned integers and booleans
  // ---------------------------------------------------------------------------

  predicate IsDigit(c: char) { '0' <= c <= '9' }

  predicate AllDigits(d: string) {
    forall k :: 0 <= k < |d| ==> IsDigit(d[k])
  }

  function DigitsValue(d: string): nat
    requires AllDigits(d)
  {
    if d == [] then 0 else DigitsValue(d[..|d| - 1]) * 10 + (d[|d| - 1] as int - '0' as int)
  }

  /**
   * `u32`/`u64` parsing: an optional `+`, then at least one decimal digit and
   * nothing else, with a value no larger than `max`.
   */
  function ParseUnsigned(s: string, max: nat): (r: Option<nat>)
    ensures r.Some? ==> r.value <= max
    ensures r.Some? ==> |s| >= 1 && (IsDigit(s[0]) || s[0] == '+')
    ensures r.Some? ==> var digits := if s[0] == '+' then s[1..] else s;
                        digits != [] && AllDigits(digits) && r.value == DigitsValue(digits)
    ensures s != [] && (var digits := if s[0] == '+' then s[1..] else s;
                        digits != [] && AllDigits(digits) && DigitsValue(digits) <= max) ==>
            r.Some?
  {
    if s == [] then None
    else
      var digits := if s[0] == '+' then s[1..] else s;
      if digits == [] || !AllDigits(digits) then None
      else if DigitsValue(digits) <= max then Some(DigitsValue(digits))
      else None
  }

  function ParseU32(s: string): (r: Option<U32>)
    ensures r.None? <==> ParseUnsigned(s, MAX_U32).None?
    ensures r.Some? ==> r.value == ParseUnsigned(s, MAX_U32).value
  {
    match ParseUnsigned(s, MAX_U32)
    case Some(n) => Some(n)
    case None => None
  }

  function ParseU64(s: string): (r: Option<U64>)
    ensures r.None? <==> ParseUnsigned(s, MAX_U64).None?
    ensures r.Some? ==> r.value == ParseUnsigned(s, MAX_U64).value
  {
    match ParseUnsigned(s, MAX_U64)
    case Some(n) => Some(n)
    case None => None
  }

  function DigitChar(n: nat): char
    requires n < 10
  {
    ('0' as int + n) as char
  }

  /** `n.to_string()` for an unsigned integer: its decimal digits, no leading zero. */
  function Decimal(n: nat): (r: string)
    ensures |r| >= 1 && AllDigits(r)
    ensures |r| > 1 ==> r[0] != '0'
  {
    if n < 10 then [DigitChar(n)] else Decimal(n / 10) + [DigitChar(n % 10)]
  }

  lemma {:induction false} DecimalValue(n: nat)
    ensures DigitsValue(Decimal(n)) == n
  {
    if n >= 10 {
      DecimalValue(n / 10);
      var d := Decimal(n);
      assert d[..|d| - 1] == Decimal(n / 10);
    }
  }

  /** Parsing the decimal text of a number in range gives that number back. */
  lemma ParseDecimal(n: nat, max: nat)
    requires n <= max
    ensures ParseUnsigned(Decimal(n), max) == Some(n)
  {
    DecimalValue(n);
  }

  /** The decimal text of a number beyond the maximum does not parse. */
  lemma ParseOverflow(n: nat, max: nat)
    requires n > max
    ensures ParseUnsigned(Decimal(n), max) == None
  {
    DecimalValue(n);
  }

  /** A character other than a digit after the optional '+' makes the parse fail. */
  lemma ParseNonDigit(s: string, max: nat, k: nat)
    requires k < |s| && !IsDigit(s[k]) && (k > 0 || s[0] != '+')
    ensures ParseUnsigned(s, max) == None
  {
    if s[0] == '+' {
      assert s[1..][k - 1] == s[k];
    }
  }

  /** A leading '+' and leading zeros are accepted, as Rust's integer `from_str` accepts them. */
  lemma ParseSignedAndPadded(max: nat)
    requires max >= 7
    ensures ParseUnsigned("+5", max) == Some(5)
    ensures ParseUnsigned("007", max) == Some(7)
  {
    assert "+5"[1..] == "5" && "5"[..0] == [];
    assert DigitsValue("5") == 5;
    assert "007"[..2] == "00" && "00"[..1] == "0" && "0"[..0] == [];
    assert DigitsValue("007") == 7;
  }

  /** `bool` parsing: exactly "true" or "false". */
  function ParseBool(s: string): (r: Option<bool>)
    ensures r.Some? <==> s == "true" || s == "false"
    ensures r.Some? ==> (r.value <==> s == "true")
  {
    if s == "true" then Some(true) else if s == "false" then Some(false) else None
  }
}
