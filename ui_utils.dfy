/**
 * `format_time` of the frontend (frontend/src/ui/utils/mod.rs): a number of seconds shown as whole hours,
 * whole minutes or seconds. The text is modelled as the count and the unit it is written with.
 */
module UiUtils {

  datatype TimeUnit = Hours | Minutes | Seconds

  /** `"{count} {unit}"`. */
  datatype FormattedTime = FormattedTime(count: nat, unit: TimeUnit)

  const SecsPerMinute: nat := 60
  const SecsPerHour: nat := 60 * 60

  /** How many seconds one unit stands for. */
  function UnitSecs(unit: TimeUnit): nat {
    match unit
    case Hours => SecsPerHour
    case Minutes => SecsPerMinute
    case Seconds => 1
  }

  /** `format_time`: hours above one hour, minutes above one minute, otherwise seconds. */
  function FormatTime(secs: nat): (r: FormattedTime)
    ensures r.unit == Hours <==> secs > 3600
    ensures r.unit == Minutes <==> 60 < secs <= 3600
    ensures r.unit == Seconds <==> secs <= 60
  {
    if secs > SecsPerHour then FormattedTime(secs / SecsPerHour, Hours)
    else if secs > SecsPerMinute then FormattedTime(secs / SecsPerMinute, Minutes)
    else FormattedTime(secs, Seconds)
  }

  // ----- Properties -----

  /**
   * The count is the number of whole units in `secs`: rounded down, never up, so the shown time is at
   * most the real one and less than one unit short of it.
   */
  lemma FormatTimeRoundsDown(secs: nat)
    ensures var r := FormatTime(secs);
      r.count * UnitSecs(r.unit) <= secs < (r.count + 1) * UnitSecs(r.unit)
  {
    var r := FormatTime(secs);
    var u := UnitSecs(r.unit);
    assert secs == r.count * u + secs % u;
  }

  /** Hours are at least 1, minutes between 1 and 60, seconds at most 60. */
  lemma FormatTimeRanges(secs: nat)
    ensures var r := FormatTime(secs);
      && (r.unit == Hours ==> r.count >= 1)
      && (r.unit == Minutes ==> 1 <= r.count <= 60)
      && (r.unit == Seconds ==> r.count <= 60)
  {
    FormatTimeRoundsDown(secs);
  }

  /** The thresholds are strict: one hour reads as 60 minutes and one minute as 60 seconds. */
  lemma FormatTimeThresholds()
    ensures FormatTime(3600) == FormattedTime(60, Minutes)
    ensures FormatTime(3601) == FormattedTime(1, Hours)
    ensures FormatTime(60) == FormattedTime(60, Seconds)
    ensures FormatTime(61) == FormattedTime(1, Minutes)
  {
  }
}
