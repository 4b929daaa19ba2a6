/** Timestamps. An instant is counted in microseconds since the Unix epoch, the unit
    the conversion to a BigQuery timestamp truncates to. The UTC calendar rendering
    ("2019-10-14 15:55:36.842000+00:00") belongs to the BigQuery client library and is
    not modelled: FormatTimestamp stands in for it with the decimal microsecond count.
    What the rest of the model relies on is only that a missing instant converts to a
    missing text, a present one to a present text, and that the text holds no quote. */
module ConversionUtil {
  import opened Common

  datatype Instant = Instant(epochMicros: nat)

  /** Stand-in for the library's fixed-format UTC rendering. */
  function FormatTimestamp(t: Instant): (s: string)
    ensures |s| > 0
    ensures forall i :: 0 <= i < |s| ==> IsDigit(s[i])
  {
    NatToString(t.epochMicros)
  }

  /** Null in, null out; otherwise the formatted instant. */
  function ConvertToTimestamp(instant: Option<Instant>): (r: Option<string>)
    ensures r.None? <==> instant.None?
    ensures instant.Some? ==> r.value == FormatTimestamp(instant.value)
  {
    match instant
    case None => None
    case Some(t) => Some(FormatTimestamp(t))
  }
}
