/** The label length the info pane shows (`InfoPane.calculate_duration` in
    `gui_components/info_pane.py`). */
module InfoPane {
  import Labels

  /** A label end point: a `datetime` (microseconds since some midnight) or a `time`. */
  datatype Moment = DateTime(us: int) | TimeOfDay(t: Labels.Tod)

  /** `.time()` of a datetime; a time is kept. */
  function TimeOf(m: Moment): (t: Labels.Tod)
    ensures m.TimeOfDay? ==> t == m.t
    ensures m.DateTime? ==> (m.us - t) % Labels.DayUs == 0
  {
    match m
    case DateTime(us) => us % Labels.DayUs
    case TimeOfDay(t) => t
  }

  /** Both times on one date; an end earlier in the day than the start lies on the next day. */
  function Duration(start: Moment, end: Moment): (d: int)
    ensures 0 <= d < Labels.DayUs
    ensures (TimeOf(start) + d) % Labels.DayUs == TimeOf(end)
    ensures TimeOf(start) <= TimeOf(end) ==> d == TimeOf(end) - TimeOf(start)
  {
    var s := TimeOf(start);
    var e := TimeOf(end);
    if e < s then e + Labels.DayUs - s else e - s
  }

  /** The shown text, before it is rounded to one decimal: seconds with " sec" or minutes
      with " min". */
  datatype DurationText = Sec(seconds: real) | Min(minutes: real)

  function CalculateDuration(start: Moment, end: Moment): (r: DurationText)
    ensures r.Sec? <==> Duration(start, end) < Labels.MinuteUs
    ensures r.Sec? ==> r.seconds * 1_000_000.0 == Duration(start, end) as real
    ensures r.Min? ==> r.minutes * 60_000_000.0 == Duration(start, end) as real
  {
    var d := Duration(start, end);
    if d < Labels.MinuteUs then Sec(d as real / 1_000_000.0) else Min(d as real / 60_000_000.0)
  }

  /** The duration is the only time span under a day that leads from start to end. */
  lemma DurationUnique(start: Moment, end: Moment, d: int)
    requires 0 <= d < Labels.DayUs
    requires (TimeOf(start) + d) % Labels.DayUs == TimeOf(end)
    ensures d == Duration(start, end)
  {
    var s := TimeOf(start);
    var e := TimeOf(end);
    if s + d < Labels.DayUs {
      assert (s + d) % Labels.DayUs == s + d;
    } else {
      assert (s + d) % Labels.DayUs == s + d - Labels.DayUs;
    }
  }

  /** Seconds are shown below a minute, minutes from one minute up to a day. */
  lemma ShownRange(start: Moment, end: Moment)
    ensures var r := CalculateDuration(start, end);
      (r.Sec? ==> 0.0 <= r.seconds < 60.0) && (r.Min? ==> 1.0 <= r.minutes < 1440.0)
  {
  }

  /** Swapping the end points gives the rest of the day. */
  lemma SwappedComplement(start: Moment, end: Moment)
    requires TimeOf(start) != TimeOf(end)
    ensures Duration(start, end) + Duration(end, start) == Labels.DayUs
  {
  }
}
