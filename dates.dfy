/** Decoding of date-typed values: a string read by the first of an ordered
    list of ISO 8601 formatters that accepts it. What each formatter accepts
    (its pattern, time zone and calendar) belongs to the platform's date
    formatting and is a parameter here. */
module Dates {
  import opened Results
  import opened JsonValues

  /** A point in time, counted in milliseconds from the platform's reference date. */
  datatype Date = Date(millisSinceReferenceDate: int)

  /** A configured date formatter: it reads a date from a string, or fails. */
  type DateFormatter = string -> Option<Date>

  /** `Date.fromISO8601String`: the date of the first formatter that reads
      `dateString`, trying them in order; nothing when none does. */
  function FromISO8601String(formatters: seq<DateFormatter>, dateString: string): (date: Option<Date>)
    ensures date.None? <==> forall i :: 0 <= i < |formatters| ==> formatters[i](dateString).None?
    ensures date.Some? ==>
      exists i :: 0 <= i < |formatters| && formatters[i](dateString) == date &&
        forall k :: 0 <= k < i ==> formatters[k](dateString).None?
    decreases |formatters|
  {
    if formatters == [] then None
    else
      match formatters[0](dateString)
      case Some(d) => Some(d)
      case None =>
        var rest := FromISO8601String(formatters[1..], dateString);
        assert forall i :: 1 <= i < |formatters| ==> formatters[i] == formatters[1..][i - 1];
        rest
  }

  /** The formatters in the order they are tried: millisecond precision first. */
  function Formatters(millisecond: DateFormatter, second: DateFormatter): seq<DateFormatter>
  {
    [millisecond, second]
  }

  /** `Date.value(_:)`: the decoder for every date-typed value. */
  function DateValue(millisecond: DateFormatter, second: DateFormatter, value: Json): (r: Result<Date>)
    ensures !value.JStr? ==> r == Err(TypeMismatch("String", KindName(value)))
    ensures value.JStr? && millisecond(value.str).Some? ==> r == Ok(millisecond(value.str).value)
    ensures value.JStr? && millisecond(value.str).None? && second(value.str).Some? ==>
      r == Ok(second(value.str).value)
    ensures value.JStr? && millisecond(value.str).None? && second(value.str).None? ==>
      r == Err(TypeMismatch("ISO8601 date string", value.str))
  {
    if !value.JStr? then Err(TypeMismatch("String", KindName(value)))
    else
      var formatters := Formatters(millisecond, second);
      assert formatters[0] == millisecond && formatters[1] == second;
      match FromISO8601String(formatters, value.str)
      case Some(date) => Ok(date)
      case None => Err(TypeMismatch("ISO8601 date string", value.str))
  }

  /** A date string both formatters accept is read with millisecond precision:
      the second formatter is consulted only when the first fails. */
  lemma MillisecondFormatterWins(millisecond: DateFormatter, second: DateFormatter, dateString: string)
    requires millisecond(dateString).Some?
    ensures DateValue(millisecond, second, JStr(dateString)) == Ok(millisecond(dateString).value)
    ensures forall other: DateFormatter ::
      DateValue(millisecond, other, JStr(dateString)) == DateValue(millisecond, second, JStr(dateString))
  {
  }

  /** Decoding a string succeeds exactly when some formatter reads it. */
  lemma DateValueSucceedsIff(millisecond: DateFormatter, second: DateFormatter, dateString: string)
    ensures DateValue(millisecond, second, JStr(dateString)).Ok? <==>
      millisecond(dateString).Some? || second(dateString).Some?
  {
  }
}
