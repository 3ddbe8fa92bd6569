/**
 * What the report code takes from outside itself: floating-point and
 * date/time parsing (the standard float parser and the chrono crate), the
 * process arguments and the file system. Each is a parameter of the model;
 * the model promises nothing about how they behave.
 */
module Collaborators {
  import opened Wrappers

  /** An IEEE 754 binary64 value, kept as its bit pattern. */
  type F64 = bv64

  /** `DateTime<FixedOffset>`: an instant and the offset it was written with. */
  datatype DateTimeTz = DateTimeTz(unixSeconds: int, nanos: nat, offsetSeconds: int)

  /** `NaiveTime`: a time of day. */
  datatype NaiveTime = NaiveTime(secondsFromMidnight: nat, nanos: nat)

  /** `NaiveDateTime`: a calendar date and time without a zone. */
  datatype NaiveDateTime = NaiveDateTime(seconds: int, nanos: nat)

  /** Partial parsers: `None` is a parse error. */
  datatype Parsers = Parsers(
    float: string -> Option<F64>,
    rfc3339: string -> Option<DateTimeTz>,
    naiveTime: string -> Option<NaiveTime>,
    // `Utc.datetime_from_str(s, "%Y-%m-%d %H:%M")` followed by `naive_local()`
    minuteTimestamp: string -> Option<NaiveDateTime>)

  /**
   * The ambient state the marker reader consults: the process arguments and
   * the contents of each readable file.
   */
  datatype Environment = Environment(
    args: seq<string>,
    readFile: string -> Option<string>,
    parsers: Parsers)
}
