/** A behaviour annotation over a time-of-day interval (`models/label.py`). Times are
    microseconds since midnight, the resolution of python's `datetime.time`. */
module Labels {
  import opened Wrappers
  import opened Text
  import Json

  const SecondUs: int := 1_000_000
  const MinuteUs: int := 60 * SecondUs
  const HourUs: int := 60 * MinuteUs
  const DayUs: int := 24 * HourUs

  /** A `datetime.time`: microseconds since 00:00:00. */
  type Tod = t: int | 0 <= t < DayUs

  datatype Label = Label(start: Tod, end: Tod, behavior: string, duration: int)

  /** A constructor argument: a string still to be parsed, or a time given as is. */
  datatype TimeArg = Text(s: string) | Given(t: Tod)

  /** What the constructor guarantees of every label it returns. */
  predicate Valid(l: Label)
  {
    l.start < l.end && l.duration == l.end - l.start
  }

  // ---------------------------------------------------------------------------------------
  // strptime with "%H:%M:%S.%f"

  const FormatMismatch := ValueError("time data does not match format '%H:%M:%S.%f'")

  /** `v` with `k` zeros appended to its digits. */
  function Padded(v: nat, k: nat): nat
  {
    if k == 0 then v else 10 * Padded(v, k - 1)
  }

  lemma {:induction false} PaddedBelow(v: nat, a: nat, k: nat)
    requires v < Pow10(a)
    ensures Padded(v, k) < Pow10(a + k)
  {
    if k > 0 {
      PaddedBelow(v, a, k - 1);
    }
  }

  /** One numeric directive: two digits when they form a value up to `max`, otherwise one
      digit (the alternatives of the directive's regular expression, longest first). */
  function Directive(s: string, max: nat): (r: Option<(nat, string)>)
    ensures r.Some? ==> r.value.0 <= if max < 9 then 9 else max
    ensures r.Some? ==> |r.value.1| < |s|
  {
    if |s| >= 2 && IsDigit(s[0]) && IsDigit(s[1]) && DigitValue(s[0]) * 10 + DigitValue(s[1]) <= max then
      Some((DigitValue(s[0]) * 10 + DigitValue(s[1]), s[2..]))
    else if |s| >= 1 && IsDigit(s[0]) then
      Some((DigitValue(s[0]), s[1..]))
    else
      None
  }

  /** `%f`: one to six digits that must end the string, padded with zeros to six places. */
  function Fraction(s: string): (r: Option<nat>)
    ensures r.Some? ==> r.value < SecondUs
  {
    var d := TakeDigits(s);
    var f := if |d| <= 6 then d else d[..6];
    if f == [] || |f| != |s| then None
    else
      PaddedBelow(DecimalValue(f), |f|, 6 - |f|);
      Some(Padded(DecimalValue(f), 6 - |f|))
  }

  /** A directive followed by its literal separator; yields the value and what follows. */
  function Field(s: string, max: nat, sep: char): (r: Option<(nat, string)>)
    ensures r.Some? ==> r.value.0 <= if max < 9 then 9 else max
  {
    var d := Directive(s, max);
    if d.None? || d.value.1 == [] || d.value.1[0] != sep then None else Some((d.value.0, d.value.1[1..]))
  }

  function Assemble(h: nat, m: nat, sec: nat, f: nat): (t: Tod)
    requires h < 24 && m < 60 && sec < 60 && f < SecondUs
  {
    h * HourUs + m * MinuteUs + sec * SecondUs + f
  }

  /** `datetime.strptime(s, "%H:%M:%S.%f").time()`. */
  function ParseTime(s: string): (r: Result<Tod>)
    ensures r.Err? ==> r.error.ValueError?
  {
    var h := Field(s, 23, ':');
    if h.None? then Err(FormatMismatch) else
    var m := Field(h.value.1, 59, ':');
    if m.None? then Err(FormatMismatch) else
    var sec := Field(m.value.1, 61, '.');
    if sec.None? then Err(FormatMismatch) else
    var f := Fraction(sec.value.1);
    if f.None? then Err(FormatMismatch)
    else if sec.value.0 > 59 then Err(ValueError("second must be in 0..59"))
    else Ok(Assemble(h.value.0, m.value.0, sec.value.0, f.value))
  }

  // ---------------------------------------------------------------------------------------
  // Rendering

  function Hours(t: Tod): nat { t / HourUs }
  function Minutes(t: Tod): nat { (t / MinuteUs) % 60 }
  function Seconds(t: Tod): nat { (t / SecondUs) % 60 }
  function Micros(t: Tod): nat { t % SecondUs }

  lemma Decompose(t: Tod)
    ensures Hours(t) < 24
    ensures t == Hours(t) * HourUs + Minutes(t) * MinuteUs + Seconds(t) * SecondUs + Micros(t)
  {
    var sec := t / SecondUs;
    var mins := sec / 60;
    assert t == sec * SecondUs + Micros(t);
    assert sec == mins * 60 + Seconds(t);
    assert t / MinuteUs == mins;
    assert mins == Hours(t) * 60 + Minutes(t);
  }

  lemma HoursOfDay(t: Tod)
    ensures Hours(t) < 24
  {
  }

  /** "HH:MM:SS", the part of every rendering before the fraction. */
  function Clock(t: Tod): (r: string)
    ensures |r| == 8
  {
    HoursOfDay(t);
    Fixed(Hours(t), 2) + ":" + Fixed(Minutes(t), 2) + ":" + Fixed(Seconds(t), 2)
  }

  /** `time.isoformat()`: the fraction is written only when it is not zero. */
  function IsoFormat(t: Tod): (r: string)
    ensures |r| == if Micros(t) == 0 then 8 else 15
    ensures r[..8] == Clock(t)
    ensures Micros(t) != 0 <==> r == Stamp(t)
  {
    if Micros(t) == 0 then Clock(t) else Clock(t) + "." + Fixed(Micros(t), 6)
  }

  /** `strftime('%H:%M:%S.%f')[:-3]`: the time truncated to milliseconds. */
  function ClockMillis(t: Tod): (r: string)
    ensures |r| == 12
  {
    Clock(t) + "." + Fixed(Micros(t) / 1000, 3)
  }

  /** `str(timedelta(microseconds=d))`: "[N day[s], ]H:MM:SS[.ffffff]", days rounded down. */
  function DeltaText(d: int): string
  {
    var days := d / DayUs;
    var rest := d % DayUs;
    var secs := rest / SecondUs;
    var hms := NatText(secs / 3600) + ":" + Fixed((secs / 60) % 60, 2) + ":" + Fixed(secs % 60, 2);
    var dayPart := if days == 0 then "" else IntText(days) + (if days == 1 || days == -1 then " day, " else " days, ");
    dayPart + hms + (if rest % SecondUs == 0 then "" else "." + Fixed(rest % SecondUs, 6))
  }

  /** `str(label)`: the behaviour, then both times cut to the millisecond, then the
      duration; `DescribeReadsBack` shows where the two times sit. */
  function Describe(l: Label): (r: string)
    ensures |r| > |l.behavior| + 30 && r[..|l.behavior| + 3] == l.behavior + " : "
  {
    var head := l.behavior + " : ";
    Framed(head, ClockMillis(l.start), " - " + ClockMillis(l.end) + " (" + DeltaText(l.duration) + ")");
    head + ClockMillis(l.start) + (" - " + ClockMillis(l.end) + " (" + DeltaText(l.duration) + ")")
  }

  /** The two times in `str(label)` read back as the label's times without their last
      three digits. */
  lemma DescribeReadsBack(l: Label)
    ensures var r := Describe(l);
      ParseTime(r[|l.behavior| + 3..|l.behavior| + 15]) == Ok(CutToMillis(l.start)) &&
      ParseTime(r[|l.behavior| + 18..|l.behavior| + 30]) == Ok(CutToMillis(l.end))
  {
    var head, a, b := l.behavior + " : ", ClockMillis(l.start), ClockMillis(l.end);
    var tail := " (" + DeltaText(l.duration) + ")";
    var r := Describe(l);
    assert r == head + a + (" - " + b + tail);
    Pieces(head, a, b, tail);
    ReadsBackAs(r[|l.behavior| + 3..|l.behavior| + 15], l.start);
    ReadsBackAs(r[|l.behavior| + 18..|l.behavior| + 30], l.end);
  }

  /** The time without its last three digits of microseconds. */
  function CutToMillis(t: Tod): Tod
  {
    t - t % 1000
  }

  lemma ReadsBackAs(s: string, t: Tod)
    requires s == ClockMillis(t)
    ensures ParseTime(s) == Ok(CutToMillis(t))
  {
    ClockMillisRoundTrip(t);
  }

  /** Where two 12-character times sit between a head, " - " and a tail. */
  lemma Pieces(head: string, a: string, b: string, tail: string)
    requires |a| == 12 && |b| == 12
    ensures (head + a + (" - " + b + tail))[|head|..|head| + 12] == a
    ensures (head + a + (" - " + b + tail))[|head| + 15..|head| + 27] == b
  {
    var r := head + a + (" - " + b + tail);
    assert r[|head| + 15..|head| + 27] == (" - " + b + tail)[3..15];
  }

  /** Where the middle piece of a three-piece string sits. */
  lemma Framed(head: string, mid: string, tail: string)
    ensures (head + mid + tail)[..|head|] == head
    ensures (head + mid + tail)[|head|..|head| + |mid|] == mid
  {
  }

  // ---------------------------------------------------------------------------------------
  // Construction and the dict form

  function ResolveTime(a: TimeArg): (r: Result<Tod>)
    ensures a.Given? ==> r == Ok(a.t)
  {
    match a
    case Text(s) => ParseTime(s)
    case Given(t) => Ok(t)
  }

  /** `Label(start_time, end_time, behavior)`: parse string times, compute the duration,
      then reject a start that is not before the end. */
  function NewLabel(start: TimeArg, end: TimeArg, behavior: string): (r: Result<Label>)
    ensures r.Ok? ==> Valid(r.value) && r.value.behavior == behavior
    ensures r.Ok? <==> ResolveTime(start).Ok? && ResolveTime(end).Ok?
                       && ResolveTime(start).value < ResolveTime(end).value
    ensures r.Ok? ==> r.value.start == ResolveTime(start).value && r.value.end == ResolveTime(end).value
  {
    var s :- ResolveTime(start);
    var e :- ResolveTime(end);
    if s >= e then Err(ValueError("start time is not before end time"))
    else Ok(Label(s, e, behavior, e - s))
  }

  const Keys: set<string> := {"start_time", "end_time", "behavior"}

  /** `to_dict` as written: the times are rendered with `time.isoformat()`, so a time on a
      whole second does not read back. */
  function AsWrittenToDict(l: Label): (r: Json.Value)
    ensures r.Obj? && r.fields.Keys == Keys && r.fields["behavior"] == Json.Str(l.behavior)
    ensures TimeFromJson(r.fields["start_time"]).Ok? <==> Micros(l.start) != 0
    ensures TimeFromJson(r.fields["end_time"]).Ok? <==> Micros(l.end) != 0
  {
    IsoRoundTrip(l.start);
    IsoRoundTrip(l.end);
    Json.Obj(map["start_time" := Json.Str(IsoFormat(l.start)),
                 "end_time" := Json.Str(IsoFormat(l.end)),
                 "behavior" := Json.Str(l.behavior)])
  }

  /** `strftime('%H:%M:%S.%f')`: the clock and always six fraction digits. */
  function Stamp(t: Tod): (r: string)
    ensures |r| == 15
  {
    Clock(t) + "." + Fixed(Micros(t), 6)
  }

  /** `to_dict` writing the times in the format `from_dict` reads: both times read back. */
  function ToDict(l: Label): (r: Json.Value)
    ensures r.Obj? && r.fields.Keys == Keys && r.fields["behavior"] == Json.Str(l.behavior)
    ensures TimeFromJson(r.fields["start_time"]) == Ok(l.start)
    ensures TimeFromJson(r.fields["end_time"]) == Ok(l.end)
  {
    StampRoundTrip(l.start);
    StampRoundTrip(l.end);
    Json.Obj(map["start_time" := Json.Str(Stamp(l.start)),
                 "end_time" := Json.Str(Stamp(l.end)),
                 "behavior" := Json.Str(l.behavior)])
  }

  /** The time of day a dict value stands for: a string is parsed; any other JSON value is
      stored as is and then fails the duration arithmetic. */
  function TimeFromJson(v: Json.Value): (r: Result<Tod>)
    ensures r.Err? && r.error == TypeError <==> !v.Str?
  {
    if v.Str? then ParseTime(v.s) else Err(TypeError)
  }

  /** The constructor's `isinstance(t, str)` branch on a dict value: a string is parsed, any
      other value is kept, which `None` stands for here. */
  function KeptTime(v: Json.Value): (r: Result<Option<Tod>>)
    ensures r.Ok? <==> !v.Str? || ParseTime(v.s).Ok?
    ensures r.Ok? ==> (r.value.Some? <==> v.Str?) && (v.Str? ==> r.value.value == ParseTime(v.s).value)
    ensures r.Err? ==> r == Err(ParseTime(v.s).error) && r.error.ValueError?
  {
    if v.Str? then
      var t :- ParseTime(v.s);
      Ok(Some(t))
    else Ok(None)
  }

  /** `Label.from_dict`: the three keys are read, then the constructor parses the string
      times in order, start first; a time that is not a string fails `calculate_duration`
      with TypeError only once both strings have parsed. The behaviour is never checked by
      the source: one that is not a string is rejected only after everything else passed. */
  function FromDict(data: Json.Value): (r: Result<Label>)
    ensures r.Ok? ==> Valid(r.value)
    ensures r.Ok? ==> data.Obj? && Keys <= data.fields.Keys &&
                      data.fields["behavior"] == Json.Str(r.value.behavior)
    ensures data.Obj? && Keys <= data.fields.Keys && r.Err? && r.error == TypeError ==>
      !data.fields["start_time"].Str? || !data.fields["end_time"].Str? || !data.fields["behavior"].Str?
  {
    var s :- Json.Get(data, "start_time");
    var e :- Json.Get(data, "end_time");
    var b :- Json.Get(data, "behavior");
    var start :- KeptTime(s);
    var end :- KeptTime(e);
    if start.None? || end.None? then Err(TypeError)
    else
      var l :- NewLabel(Given(start.value), Given(end.value), if b.Str? then b.s else "");
      if b.Str? then Ok(l) else Err(TypeError)
  }

  // ---------------------------------------------------------------------------------------
  // Properties

  lemma FieldOfFixed(n: nat, max: nat, sep: char, rest: string)
    requires n <= max && n < 100 && !IsDigit(sep)
    ensures Field(Fixed(n, 2) + [sep] + rest, max, sep) == Some((n, rest))
  {
    var s := Fixed(n, 2) + [sep] + rest;
    FixedValue(n, 2);
    assert s[..2] == Fixed(n, 2);
    assert DecimalValue(Fixed(n, 2)) == DigitValue(s[0]) * 10 + DigitValue(s[1]) by {
      assert Fixed(n, 2)[..1] == [s[0]];
    }
    assert s[2..] == [sep] + rest;
  }

  lemma FractionOf(n: nat, width: nat)
    requires 1 <= width <= 6 && n < Pow10(width)
    ensures Fraction(Fixed(n, width)) == Some(Padded(n, 6 - width))
  {
    TakeDigitsOf(Fixed(n, width), "");
    assert Fixed(n, width) + "" == Fixed(n, width);
    FixedValue(n, width);
  }

  /** Parsing "HH:MM:SS." followed by `tail` reads back the clock of `t`. */
  lemma ParseClock(t: Tod, tail: string, f: nat)
    requires Fraction(tail) == Some(f)
    ensures Hours(t) < 24
    ensures ParseTime(Clock(t) + "." + tail) == Ok(Assemble(Hours(t), Minutes(t), Seconds(t), f))
  {
    HoursOfDay(t);
    var s1, s2 := ClockFields(t, tail);
    ParseOfFields(Clock(t) + "." + tail, s1, s2, tail, Hours(t), Minutes(t), Seconds(t), f);
  }

  /** The three fields of "HH:MM:SS." followed by `tail`, each with what follows it. */
  lemma ClockFields(t: Tod, tail: string) returns (s1: string, s2: string)
    ensures Field(Clock(t) + "." + tail, 23, ':') == Some((Hours(t), s1))
    ensures Field(s1, 59, ':') == Some((Minutes(t), s2))
    ensures Field(s2, 61, '.') == Some((Seconds(t), tail))
  {
    HoursOfDay(t);
    var hh, mm, ss := Fixed(Hours(t), 2), Fixed(Minutes(t), 2), Fixed(Seconds(t), 2);
    s1 := mm + [':'] + ss + ['.'] + tail;
    s2 := ss + ['.'] + tail;
    assert Clock(t) + "." + tail == hh + [':'] + s1;
    FieldOfFixed(Hours(t), 23, ':', s1);
    assert s1 == mm + [':'] + s2;
    FieldOfFixed(Minutes(t), 59, ':', s2);
    FieldOfFixed(Seconds(t), 61, '.', tail);
  }

  /** Three fields that read `h`, `m` and `sec` followed by a fraction parse to their sum. */
  lemma ParseOfFields(s0: string, s1: string, s2: string, tail: string, h: nat, m: nat, sec: nat, f: nat)
    requires Field(s0, 23, ':') == Some((h, s1))
    requires Field(s1, 59, ':') == Some((m, s2))
    requires Field(s2, 61, '.') == Some((sec, tail))
    requires sec < 60 && Fraction(tail) == Some(f)
    ensures ParseTime(s0) == Ok(Assemble(h, m, sec, f))
  {
  }

  /** A whole-second clock has no separator after the seconds, so the format rejects it. */
  lemma ParseBareClock(t: Tod)
    ensures ParseTime(Clock(t)) == Err(FormatMismatch)
  {
    Decompose(t);
    var hh, mm, ss := Fixed(Hours(t), 2), Fixed(Minutes(t), 2), Fixed(Seconds(t), 2);
    assert Clock(t) == hh + [':'] + (mm + ":" + ss);
    FieldOfFixed(Hours(t), 23, ':', mm + ":" + ss);
    assert mm + ":" + ss == mm + [':'] + ss;
    FieldOfFixed(Minutes(t), 59, ':', ss);
    var d := Directive(ss, 61);
    assert d.Some? ==> d.value.1 == ss[2..] || d.value.1 == ss[1..];
    assert d.Some? ==> d.value.1 == [] || d.value.1[0] == ss[1];
  }

  /** `time.isoformat` parses back with "%H:%M:%S.%f" exactly when the time has a nonzero
      fraction; a whole-second time is written without one and the format rejects it. */
  lemma IsoRoundTrip(t: Tod)
    ensures Micros(t) != 0 ==> ParseTime(IsoFormat(t)) == Ok(t)
    ensures Micros(t) == 0 ==> ParseTime(IsoFormat(t)) == Err(FormatMismatch)
  {
    if Micros(t) == 0 {
      ParseBareClock(t);
    } else {
      assert IsoFormat(t) == Stamp(t);
      StampRoundTrip(t);
    }
  }

  lemma MillisOfMicros(t: Tod)
    ensures t - Micros(t) + Micros(t) / 1000 * 1000 == t - t % 1000
  {
    var u := Micros(t);
    var r := u % 1000;
    assert u == u / 1000 * 1000 + r;
    assert t == t / SecondUs * SecondUs + u;
    RemainderOf(t, t / SecondUs * 1000 + u / 1000, r);
  }

  lemma RemainderOf(n: int, q: int, r: int)
    requires n == q * 1000 + r && 0 <= r < 1000
    ensures n % 1000 == r
  {
  }

  /** The millisecond rendering parses back to the time truncated to whole milliseconds. */
  lemma ClockMillisRoundTrip(t: Tod)
    ensures ParseTime(ClockMillis(t)) == Ok(t - t % 1000)
  {
    var ms := Micros(t) / 1000;
    assert Fraction(Fixed(ms, 3)) == Some(ms * 1000) by {
      assert ms < Pow10(3);
      assert Padded(ms, 1) == ms * 10;
      assert Padded(ms, 2) == ms * 100;
      assert Padded(ms, 3) == ms * 1000;
      FractionOf(ms, 3);
    }
    ParseMillis(t, Fixed(ms, 3));
  }

  /** The clock of `t` followed by a fraction denoting its whole milliseconds parses to `t`
      truncated to milliseconds. */
  lemma ParseMillis(t: Tod, tail: string)
    requires Fraction(tail) == Some(Micros(t) / 1000 * 1000)
    ensures ParseTime(Clock(t) + "." + tail) == Ok(t - t % 1000)
  {
    var f := Micros(t) / 1000 * 1000;
    var truncated: Result<Tod> := Ok(t - t % 1000);
    assert Ok(Assemble(Hours(t), Minutes(t), Seconds(t), f)) == truncated by {
      AssembleClock(t, f);
      MillisOfMicros(t);
    }
    ParseClock(t, tail, f);
  }

  /** `Label.from_dict(label.to_dict())` as written gives the label back exactly when
      neither time is a whole second. */
  lemma AsWrittenDictRoundTrip(l: Label)
    requires Valid(l)
    ensures FromDict(AsWrittenToDict(l)).Ok? <==> Micros(l.start) != 0 && Micros(l.end) != 0
    ensures FromDict(AsWrittenToDict(l)).Ok? ==> FromDict(AsWrittenToDict(l)).value == l
  {
    var a, b := IsoFormat(l.start), IsoFormat(l.end);
    if Micros(l.start) != 0 && Micros(l.end) != 0 {
      assert TimeFromJson(Json.Str(a)) == Ok(l.start) by { IsoRoundTrip(l.start); }
      assert TimeFromJson(Json.Str(b)) == Ok(l.end) by { IsoRoundTrip(l.end); }
      FromDictOf(a, b, l.behavior, l.start, l.end);
      Rebuild(l);
    } else {
      assert TimeFromJson(Json.Str(a)).Err? || TimeFromJson(Json.Str(b)).Err? by {
        IsoRoundTrip(l.start);
        IsoRoundTrip(l.end);
      }
      FromDictRejects(a, b, l.behavior);
    }
  }

  /** A label drawn from 10:00:00 to 10:05:00 is saved as written but cannot be read back;
      with every fraction written it comes back unchanged. */
  lemma WholeSecondLabelLost()
    ensures var l := Label(10 * HourUs, 10 * HourUs + 5 * MinuteUs, "walk", 5 * MinuteUs);
      FromDict(AsWrittenToDict(l)) == Err(FormatMismatch) && FromDict(ToDict(l)) == Ok(l)
  {
    var l := Label(10 * HourUs, 10 * HourUs + 5 * MinuteUs, "walk", 5 * MinuteUs);
    WholeSecondStartLost(l);
    DictRoundTrip(l);
  }

  /** A label starting on a whole second is written without a fraction and fails to load
      with the format error. */
  lemma WholeSecondStartLost(l: Label)
    requires Micros(l.start) == 0
    ensures FromDict(AsWrittenToDict(l)) == Err(FormatMismatch)
  {
    var a, b := IsoFormat(l.start), IsoFormat(l.end);
    assert TimeFromJson(Json.Str(a)) == Err(FormatMismatch) by { IsoRoundTrip(l.start); }
    FromDictRejects(a, b, l.behavior);
  }

  /** Every time of day parses back from its full rendering. */
  lemma StampRoundTrip(t: Tod)
    ensures ParseTime(Stamp(t)) == Ok(t)
  {
    var us := Micros(t);
    assert Assemble(Hours(t), Minutes(t), Seconds(t), us) == t by {
      AssembleClock(t, us);
    }
    assert Fraction(Fixed(us, 6)) == Some(us) by {
      assert us < Pow10(6);
      FractionOf(us, 6);
      assert Padded(us, 0) == us;
    }
    ParseClock(t, Fixed(us, 6), us);
  }

  /** The clock fields of `t` with the fraction `f` put back together: `t` with its
      microseconds replaced by `f`. */
  lemma AssembleClock(t: Tod, f: nat)
    requires f < SecondUs
    ensures Hours(t) < 24
    ensures Assemble(Hours(t), Minutes(t), Seconds(t), f) == t - Micros(t) + f
  {
    Decompose(t);
  }

  /** A dict of two times that are read and a behaviour gives what the constructor makes of
      them. */
  lemma FromDictOf(a: string, b: string, behavior: string, s: Tod, e: Tod)
    requires TimeFromJson(Json.Str(a)) == Ok(s) && TimeFromJson(Json.Str(b)) == Ok(e)
    ensures FromDict(Json.Obj(map["start_time" := Json.Str(a), "end_time" := Json.Str(b), "behavior" := Json.Str(behavior)]))
         == NewLabel(Given(s), Given(e), behavior)
  {
    var d := Json.Obj(map["start_time" := Json.Str(a), "end_time" := Json.Str(b), "behavior" := Json.Str(behavior)]);
    assert Json.Get(d, "start_time") == Ok(Json.Str(a));
    assert Json.Get(d, "end_time") == Ok(Json.Str(b));
    assert Json.Get(d, "behavior") == Ok(Json.Str(behavior));
  }

  /** A dict whose start time, or else whose end time, cannot be read fails with that
      time's error. */
  lemma FromDictRejects(a: string, b: string, behavior: string)
    ensures var d := Json.Obj(map["start_time" := Json.Str(a), "end_time" := Json.Str(b), "behavior" := Json.Str(behavior)]);
      && (TimeFromJson(Json.Str(a)).Err? ==> FromDict(d) == Err(TimeFromJson(Json.Str(a)).error))
      && (TimeFromJson(Json.Str(a)).Ok? && TimeFromJson(Json.Str(b)).Err? ==> FromDict(d) == Err(TimeFromJson(Json.Str(b)).error))
  {
    var d := Json.Obj(map["start_time" := Json.Str(a), "end_time" := Json.Str(b), "behavior" := Json.Str(behavior)]);
    assert Json.Get(d, "start_time") == Ok(Json.Str(a));
    assert Json.Get(d, "end_time") == Ok(Json.Str(b));
    assert Json.Get(d, "behavior") == Ok(Json.Str(behavior));
  }

  /** A time that is not a string is kept by the constructor, so a malformed end string
      still fails first, with its own ValueError. */
  lemma {:induction false} NonStringStartKept(d: Json.Value, x: string)
    requires d.Obj? && Keys <= d.fields.Keys
    requires !d.fields["start_time"].Str? && d.fields["end_time"] == Json.Str(x)
    requires ParseTime(x).Err?
    ensures FromDict(d) == Err(ParseTime(x).error) && FromDict(d).error.ValueError?
  {
    assert Json.Get(d, "start_time") == Ok(d.fields["start_time"]);
    assert Json.Get(d, "end_time") == Ok(Json.Str(x));
    assert KeptTime(d.fields["start_time"]) == Ok(None);
  }

  /** A time that is not a string, with every string time parsing, fails the duration
      arithmetic with TypeError. */
  lemma {:induction false} NonStringTimeFails(d: Json.Value)
    requires d.Obj? && Keys <= d.fields.Keys
    requires var s, e := d.fields["start_time"], d.fields["end_time"];
      (!s.Str? || !e.Str?) && (s.Str? ==> ParseTime(s.s).Ok?) && (e.Str? ==> ParseTime(e.s).Ok?)
    ensures FromDict(d) == Err(TypeError)
  {
    assert Json.Get(d, "start_time") == Ok(d.fields["start_time"]);
    assert Json.Get(d, "end_time") == Ok(d.fields["end_time"]);
    assert Json.Get(d, "behavior") == Ok(d.fields["behavior"]);
  }

  /** `{"start_time": null, "end_time": "bad", "behavior": "x"}` fails with ValueError, the
      class the label validation in `main.py` catches. */
  lemma NullStartBadEnd()
    ensures var d := Json.Obj(map["start_time" := Json.Null, "end_time" := Json.Str("bad"), "behavior" := Json.Str("x")]);
      FromDict(d).Err? && FromDict(d).error.ValueError?
  {
    var d := Json.Obj(map["start_time" := Json.Null, "end_time" := Json.Str("bad"), "behavior" := Json.Str("x")]);
    assert ParseTime("bad").Err? by {
      assert Field("bad", 23, ':').None?;
    }
    NonStringStartKept(d, "bad");
  }

  /** The constructor given a label's own times and behaviour builds that label again. */
  lemma Rebuild(l: Label)
    requires Valid(l)
    ensures NewLabel(Given(l.start), Given(l.end), l.behavior) == Ok(l)
  {
  }

  /** `Label.from_dict(label.to_dict())` gives every label the constructor accepts back. */
  lemma DictRoundTrip(l: Label)
    requires Valid(l)
    ensures FromDict(ToDict(l)) == Ok(l)
  {
    var a, b := Stamp(l.start), Stamp(l.end);
    assert TimeFromJson(Json.Str(a)) == Ok(l.start) by { StampRoundTrip(l.start); }
    assert TimeFromJson(Json.Str(b)) == Ok(l.end) by { StampRoundTrip(l.end); }
    FromDictOf(a, b, l.behavior, l.start, l.end);
    Rebuild(l);
  }
}
