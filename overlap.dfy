/** The overlap adjustment a new label goes through before it is created
    (`validate_user_label_times` in `gui_components/viewer.py`). Pointer positions are
    microseconds since 1900-01-01 00:00; label bounds are times of day. */
module Overlap {
  import opened Wrappers
  import opened Labels

  /** `(datetime.combine(datetime.min, t) + delta).time()` for a time `t` and a signed
      buffer: the sum wraps at midnight, and a result before `datetime.min` overflows. */
  function ShiftedTime(v: int): (r: Result<Tod>)
    ensures r.Ok? <==> v >= 0
    ensures r.Err? ==> r.error == OverflowError
    ensures r.Ok? && v < DayUs ==> r.value == v
  {
    if v < 0 then Err(OverflowError) else Ok(v % DayUs)
  }

  /** One pass of the loop against label `l`: a start inside `l` moves to its end plus the
      buffer, an end inside `l` moves to its start minus the buffer, and a reversed pair is
      swapped back. */
  function AdjustStep(l: Label, s: Tod, e: Tod, buffer: int): (r: Result<(Tod, Tod)>)
    ensures r.Ok? ==> r.value.0 <= r.value.1
  {
    var s1 :- if l.start <= s <= l.end then ShiftedTime(l.end + buffer) else Ok(s);
    var e1 :- if l.start <= e <= l.end then ShiftedTime(l.start - buffer) else Ok(e);
    Ok(if s1 > e1 then (e1, s1) else (s1, e1))
  }

  /** Every label leaves room for the buffer on both sides, so no shift overflows. */
  predicate Room(ls: seq<Label>, buffer: int)
  {
    forall i :: 0 <= i < |ls| ==> 0 <= ls[i].end + buffer && buffer <= ls[i].start
  }

  /** The whole loop over the labels, in their order: the only failure is the overflow of a
      shift below `datetime.min`, which cannot happen while every label leaves room. */
  function Adjust(ls: seq<Label>, s: Tod, e: Tod, buffer: int): (r: Result<(Tod, Tod)>)
    ensures r.Err? ==> r.error == OverflowError
    ensures Room(ls, buffer) ==> r.Ok?
  {
    if ls == [] then Ok((s, e))
    else
      var p :- AdjustStep(ls[0], s, e, buffer);
      Adjust(ls[1..], p.0, p.1, buffer)
  }

  /** `validate_user_label_times` after the sort: the two pointer positions are put in order,
      reduced to times of day, and adjusted against every label; with no labels the times
      of day of the two positions come back in the order of the positions. */
  function Validate(ls: seq<Label>, start: int, end: int, buffer: int): (r: Result<(Tod, Tod)>)
    ensures r.Err? ==> r.error == OverflowError
    ensures Room(ls, buffer) ==> r.Ok?
    ensures ls == [] ==> r == Ok(if start > end then (end % DayUs, start % DayUs)
                                 else (start % DayUs, end % DayUs))
  {
    var (a, b) := if start > end then (end, start) else (start, end);
    Adjust(ls, a % DayUs, b % DayUs, buffer)
  }

  /** The interval from `s` to `e` shares no instant with the label; touching counts as
      overlap, as the closed comparisons of the loop do. */
  predicate Apart(l: Label, s: Tod, e: Tod)
  {
    e < l.start || l.end < s
  }

  /** What the docstring of `validate_user_label_times` promises: the adjusted interval,
      kept only when it overlaps no existing label, and otherwise a ValueError. Whenever the
      adjustment as written already avoids every label, the two agree. */
  function ValidateApart(ls: seq<Label>, start: int, end: int, buffer: int): (r: Result<(Tod, Tod)>)
    ensures r.Ok? ==> forall i :: 0 <= i < |ls| ==> Apart(ls[i], r.value.0, r.value.1)
    ensures r.Ok? <==> (Validate(ls, start, end, buffer).Ok? &&
      forall i :: 0 <= i < |ls| ==> Apart(ls[i], Validate(ls, start, end, buffer).value.0, Validate(ls, start, end, buffer).value.1))
    ensures r.Ok? ==> r == Validate(ls, start, end, buffer)
    ensures r.Err? && Validate(ls, start, end, buffer).Ok? ==> r.error.ValueError?
  {
    var t :- Validate(ls, start, end, buffer);
    if forall i | 0 <= i < |ls| :: Apart(ls[i], t.0, t.1) then Ok(t)
    else Err(ValueError("label overlaps an existing label"))
  }

  /** After at least one label has been looked at, the pair is in order. */
  lemma {:induction false} AdjustOrdered(ls: seq<Label>, s: Tod, e: Tod, buffer: int)
    requires ls != [] || s <= e
    requires Adjust(ls, s, e, buffer).Ok?
    ensures Adjust(ls, s, e, buffer).value.0 <= Adjust(ls, s, e, buffer).value.1
  {
    if ls != [] {
      var p := AdjustStep(ls[0], s, e, buffer).value;
      AdjustOrdered(ls[1..], p.0, p.1, buffer);
    }
  }

  /** The result starts no later than it ends, whenever there is a label to compare against
      or both pointer positions fall on the same day; positions on two different days with
      no labels can come out reversed, and the label constructor then rejects them. */
  lemma ValidateOrdered(ls: seq<Label>, start: int, end: int, buffer: int)
    requires ls != [] || start / DayUs == end / DayUs
    requires Validate(ls, start, end, buffer).Ok?
    ensures Validate(ls, start, end, buffer).value.0 <= Validate(ls, start, end, buffer).value.1
  {
    var (a, b) := if start > end then (end, start) else (start, end);
    if ls == [] {
      assert a / DayUs == b / DayUs;
      assert a == a / DayUs * DayUs + a % DayUs;
      assert b == b / DayUs * DayUs + b % DayUs;
    }
    AdjustOrdered(ls, a % DayUs, b % DayUs, buffer);
  }

  /** Reversed positions on two days, with no label to compare against, stay reversed. */
  lemma ValidateAcrossMidnight()
    ensures Validate([], 23 * HourUs, DayUs + HourUs, 0) == Ok((23 * HourUs, HourUs))
  {
  }

  /** An interval that has no endpoint inside any label comes back unchanged; in particular
      one that strictly contains an existing label is not prevented from overlapping it. */
  lemma {:induction false} AdjustClear(ls: seq<Label>, s: Tod, e: Tod, buffer: int)
    requires s <= e
    requires forall i :: 0 <= i < |ls| ==> !(ls[i].start <= s <= ls[i].end) && !(ls[i].start <= e <= ls[i].end)
    ensures Adjust(ls, s, e, buffer) == Ok((s, e))
  {
    if ls != [] {
      assert AdjustStep(ls[0], s, e, buffer) == Ok((s, e));
      AdjustClear(ls[1..], s, e, buffer);
    }
  }

  /** Worked example: against an existing 10:00-10:05 label, a proposed 10:04-10:06 label
      starts one buffer after 10:05 and keeps its end. */
  lemma OverlapExample(buffer: int)
    requires 0 <= buffer <= MinuteUs
    ensures var existing := Label(10 * HourUs, 10 * HourUs + 5 * MinuteUs, "walk", 5 * MinuteUs);
      Validate([existing], 10 * HourUs + 4 * MinuteUs, 10 * HourUs + 6 * MinuteUs, buffer) ==
        Ok((10 * HourUs + 5 * MinuteUs + buffer, 10 * HourUs + 6 * MinuteUs))
  {
    var existing := Label(10 * HourUs, 10 * HourUs + 5 * MinuteUs, "walk", 5 * MinuteUs);
    var s := 10 * HourUs + 4 * MinuteUs;
    var e := 10 * HourUs + 6 * MinuteUs;
    assert s % DayUs == s && e % DayUs == e;
    assert AdjustStep(existing, s, e, buffer) == Ok((10 * HourUs + 5 * MinuteUs + buffer, e));
    assert [existing][1..] == [];
    assert Adjust([], 10 * HourUs + 5 * MinuteUs + buffer, e, buffer) == Ok((10 * HourUs + 5 * MinuteUs + buffer, e));
    assert Validate([existing], s, e, buffer) == Adjust([existing], s, e, buffer);
  }

  /** With one label, a positive buffer and no wrap at either end of the day, neither end of
      the adjusted interval lies inside the label. */
  lemma OneLabelAvoided(l: Label, s: Tod, e: Tod, buffer: int)
    requires l.start <= l.end && 0 < buffer
    requires l.end + buffer < DayUs && l.start - buffer >= 0
    ensures Adjust([l], s, e, buffer).Ok?
    ensures var r := Adjust([l], s, e, buffer).value;
      !(l.start <= r.0 <= l.end) && !(l.start <= r.1 <= l.end)
  {
    assert Adjust([l], s, e, buffer) == AdjustStep(l, s, e, buffer);
  }

  /** As written, a proposed interval inside a label has both ends pushed out of it and is
      swapped back, so the result swallows the label; the corrected validation rejects it. */
  lemma InsideLabelSwallowed(buffer: int)
    requires 0 < buffer <= MinuteUs
    ensures var existing := Label(10 * HourUs, 10 * HourUs + 5 * MinuteUs, "walk", 5 * MinuteUs);
      var r := Validate([existing], 10 * HourUs + MinuteUs, 10 * HourUs + 2 * MinuteUs, buffer);
      r == Ok((10 * HourUs - buffer, 10 * HourUs + 5 * MinuteUs + buffer)) &&
      !Apart(existing, r.value.0, r.value.1) &&
      ValidateApart([existing], 10 * HourUs + MinuteUs, 10 * HourUs + 2 * MinuteUs, buffer).Err?
  {
    var existing := Label(10 * HourUs, 10 * HourUs + 5 * MinuteUs, "walk", 5 * MinuteUs);
    var s := 10 * HourUs + MinuteUs;
    var e := 10 * HourUs + 2 * MinuteUs;
    var t := (10 * HourUs - buffer, 10 * HourUs + 5 * MinuteUs + buffer);
    assert s % DayUs == s && e % DayUs == e;
    assert AdjustStep(existing, s, e, buffer) == Ok(t);
    assert [existing][1..] == [];
    assert Adjust([], t.0, t.1, buffer) == Ok(t);
    assert Validate([existing], s, e, buffer) == Adjust([existing], s, e, buffer);
    assert !Apart([existing][0], t.0, t.1);
  }
}
