/** ZoneFormatter: the text a clock label shows for one zone, with the
    fallback ladder of app3.py:143-168 / app4.py:126-148.

    `time.strftime`, `datetime.now(tz).strftime` and `pytz.timezone` are
    foreign: they are the two functions of a `Now` value, which stands for
    "the current instant and the time-zone database". Either may fail, and
    the kind of failure decides which handler catches it. */
module ZoneFormat {

  /** The fixed pattern of the fallback step and of every default zone. */
  const DefaultFormat: string := "%H:%M:%S\n%d-%m-%Y"

  /** The zone id that means "the machine's local time". */
  const LocalZone: string := "local"

  /** The text written when even the fallback fails. */
  const ErrorText: string := "Error"

  /** Exceptions a formatting call can raise. `ValueError` (a bad pattern) and
      `UnknownTimeZoneError` (a bad zone id) are the ones the clock catches;
      anything else escapes the tick. */
  datatype Fault = ValueError | UnknownTimeZoneError | OtherError

  datatype Outcome = Formatted(text: string) | Raised(fault: Fault)

  /** `local(pattern)` is `time.strftime(pattern)`; `zoned(zoneId, pattern)` is
      `datetime.now(pytz.timezone(zoneId)).strftime(pattern)`. */
  datatype Now = Now(local: string -> Outcome, zoned: (string, string) -> Outcome)

  /** What one zone contributes to a tick: a label text, or an exception that
      leaves the `update_time` callback. */
  datatype Shown = Text(text: string) | Escaped

  /** A fault that the first `except (ValueError, pytz.UnknownTimeZoneError)`
      handler catches. */
  predicate Caught(f: Fault) {
    f == ValueError || f == UnknownTimeZoneError
  }

  /** The first attempt: local time for the sentinel id, zoned time otherwise. */
  function Primary(zoneId: string, pattern: string, now: Now): Outcome {
    if zoneId == LocalZone then now.local(pattern) else now.zoned(zoneId, pattern)
  }

  /** The fallback step: local time with the default pattern; its bare
      `except:` turns any failure into "Error". */
  function Fallback(now: Now): (s: string)
    ensures now.local(DefaultFormat).Formatted? ==> s == now.local(DefaultFormat).text
    ensures now.local(DefaultFormat).Raised? ==> s == ErrorText
  {
    match now.local(DefaultFormat)
    case Formatted(t) => t
    case Raised(_) => ErrorText
  }

  /** The whole ladder for one zone. */
  function ZoneText(zoneId: string, pattern: string, now: Now): Shown {
    match Primary(zoneId, pattern, now)
    case Formatted(t) => Text(t)
    case Raised(f) => if Caught(f) then Text(Fallback(now)) else Escaped
  }

  /** The ladder escapes only for a fault the handler does not name; otherwise
      the label text is the zone's own time, the local default, or "Error". */
  lemma ZoneTextCases(zoneId: string, pattern: string, now: Now)
    ensures ZoneText(zoneId, pattern, now).Escaped? <==>
              Primary(zoneId, pattern, now) == Raised(OtherError)
    ensures ZoneText(zoneId, pattern, now).Text? ==>
              var t := ZoneText(zoneId, pattern, now).text;
              (Primary(zoneId, pattern, now).Formatted? && t == Primary(zoneId, pattern, now).text) ||
              (now.local(DefaultFormat).Formatted? && t == now.local(DefaultFormat).text) ||
              t == ErrorText
  {
  }

  /** An unknown zone id never raises: the label shows local time in the
      default pattern, the same text the fallback gives at that instant. */
  lemma UnknownZoneFallsBack(zoneId: string, pattern: string, now: Now)
    requires zoneId != LocalZone
    requires now.zoned(zoneId, pattern) == Raised(UnknownTimeZoneError)
    ensures ZoneText(zoneId, pattern, now) == Text(Fallback(now))
    ensures now.local(DefaultFormat).Formatted? ==>
              ZoneText(zoneId, pattern, now) == Text(now.local(DefaultFormat).text)
  {
  }

  /** "Error" is shown for a zone whose own time formats only when both its own
      attempt and the fallback failed. */
  lemma ErrorOnlyWhenBothFail(zoneId: string, pattern: string, now: Now)
    requires ZoneText(zoneId, pattern, now) == Text(ErrorText)
    ensures Primary(zoneId, pattern, now).Raised? ==> now.local(DefaultFormat).Raised? || now.local(DefaultFormat).text == ErrorText
    ensures Primary(zoneId, pattern, now).Formatted? ==> Primary(zoneId, pattern, now).text == ErrorText
  {
  }
}
