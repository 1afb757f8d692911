/** The horizontal view window of the data viewer (`gui_components/viewer.py`): panning by
    5 % of the width, zooming around a cursor with the window kept inside the data range
    plus a 10 % margin, fitting the labels and showing all the data. Positions are
    microseconds since 1900-01-01 00:00 (matplotlib's date numbers shifted and rescaled),
    as exact reals. */
module Viewport {
  import opened Wrappers
  import Labels

  datatype Window = Window(lo: real, hi: real)

  /** The one position python reads as a false `xdata`: matplotlib's date number 0.0, which is
      1970-01-01 00:00, 25567 days after 1900-01-01. */
  const FalsyPosition: int := 25567 * Labels.DayUs

  function Width(w: Window): real { w.hi - w.lo }

  function Min(a: real, b: real): real { if a <= b then a else b }
  function Max(a: real, b: real): real { if a >= b then a else b }

  // ---------------------------------------------------------------------------------------
  // pan

  datatype Direction = Left | Right

  /** What the status bar reports after a pan. */
  datatype PanStatus = AtStart | AtEnd | Panned(direction: Direction)

  /** `pan`: both edges move by 5 % of the width; a window pushed past the start of the data
      is pinned there with its width kept where the data allows, and likewise at the end. */
  function Pan(w: Window, dir: Direction, dmin: real, dmax: real): (r: (Window, PanStatus))
    ensures r.1.Panned? ==> r.1.direction == dir && Width(r.0) == Width(w)
    ensures r.1.Panned? && dir == Left ==> r.0.lo == w.lo - Width(w) / 20.0
    ensures r.1.Panned? && dir == Right ==> r.0.lo == w.lo + Width(w) / 20.0
    ensures r.1.AtStart? ==> r.0 == Window(dmin, Min(dmax, dmin + Width(w)))
    ensures r.1.AtEnd? ==> r.0 == Window(Max(dmin, dmax - Width(w)), dmax)
  {
    var shift := Width(w) * 0.05;
    var moved := if dir == Left then Window(w.lo - shift, w.hi - shift) else Window(w.lo + shift, w.hi + shift);
    if moved.lo < dmin then (Window(dmin, Min(dmax, dmin + Width(w))), AtStart)
    else if moved.hi > dmax then (Window(Max(dmin, dmax - Width(w)), dmax), AtEnd)
    else (moved, Panned(dir))
  }

  /** A pan never leaves the data: from any ordered window the result lies in
      `[dmin, dmax]`, and it is pinned to an edge only when the plain shift would cross it. */
  lemma PanStaysInData(w: Window, dir: Direction, dmin: real, dmax: real)
    requires w.lo <= w.hi && dmin <= dmax
    ensures var r := Pan(w, dir, dmin, dmax).0; dmin <= r.lo <= r.hi <= dmax
    ensures Pan(w, dir, dmin, dmax).1.AtStart? <==>
      (if dir == Left then w.lo - Width(w) / 20.0 else w.lo + Width(w) / 20.0) < dmin
  {
  }

  // ---------------------------------------------------------------------------------------
  // zoom

  /** The data range with 10 % of its length added on each side: the widest window a zoom
      allows and the window `zoom_out_to_show_all` sets. */
  function Margined(dmin: real, dmax: real): (m: Window)
    ensures dmin <= dmax ==> m.lo <= dmin && dmax <= m.hi
  {
    var range := dmax - dmin;
    Window(dmin - 0.1 * range, dmax + 0.1 * range)
  }

  datatype ZoomDirection = In | Out

  /** The keys and the wheel zoom by 1.2 or by 1/1.2. */
  function Factor(z: ZoomDirection): (f: real)
    ensures f > 0.0
  {
    if z == In then 6.0 / 5.0 else 5.0 / 6.0
  }

  /** What the status bar reports after a zoom: everything is shown, the share of the
      margined range that is visible, or, when the data has no extent, the `-inf` share that
      numpy's float64 division by zero gives. */
  datatype ZoomStatus = ShowingAll | Visible(share: real) | MinusInfinity

  /** The window scaled by `1/f` around the cursor `c`, before any clamping. */
  function Scaled(w: Window, c: real, f: real): Window
    requires f > 0.0
  {
    Window(c - (c - w.lo) / f, c + (w.hi - c) / f)
  }

  /** `zoom`: scale around the cursor, clamp each edge to the margined range on its own side,
      and fall back to the whole margined range when the result would be at least that wide.
      The window is set in every case; with no data extent the clamped window is inverted and
      its share divides a negative width by zero. */
  function Zoom(w: Window, c: real, z: ZoomDirection, dmin: real, dmax: real): (r: (Window, ZoomStatus))
    ensures r.1.ShowingAll? <==> Width(Window(Max(Scaled(w, c, Factor(z)).lo, Margined(dmin, dmax).lo),
                                              Min(Scaled(w, c, Factor(z)).hi, Margined(dmin, dmax).hi)))
                                  >= Width(Margined(dmin, dmax))
    ensures r.1.ShowingAll? ==> r.0 == Margined(dmin, dmax)
    ensures !r.1.ShowingAll? ==>
      r.0 == Window(Max(Scaled(w, c, Factor(z)).lo, Margined(dmin, dmax).lo),
                    Min(Scaled(w, c, Factor(z)).hi, Margined(dmin, dmax).hi))
    ensures Margined(dmin, dmax).lo <= r.0.lo && r.0.hi <= Margined(dmin, dmax).hi
    ensures r.1.Visible? ==>
      Width(Margined(dmin, dmax)) != 0.0 && Width(r.0) < Width(Margined(dmin, dmax)) &&
      r.1.share == Width(r.0) / Width(Margined(dmin, dmax))
    ensures r.1.MinusInfinity? ==> Width(Margined(dmin, dmax)) == 0.0 && r.0.hi < r.0.lo
  {
    var s := Scaled(w, c, Factor(z));
    var m := Margined(dmin, dmax);
    var clamped := Window(if s.lo < m.lo then m.lo else s.lo, if s.hi > m.hi then m.hi else s.hi);
    if Width(clamped) >= Width(m) then (m, ShowingAll)
    else if Width(m) == 0.0 then (clamped, MinusInfinity)
    else (clamped, Visible(Width(clamped) / Width(m)))
  }

  /** A one-row file (no data extent): any zoom that does not already show everything sets an
      inverted window and reports a `-inf` share. */
  lemma ZoomWithoutExtent(w: Window, c: real, z: ZoomDirection, d: real)
    requires Width(Window(Max(Scaled(w, c, Factor(z)).lo, d), Min(Scaled(w, c, Factor(z)).hi, d))) < 0.0
    ensures Zoom(w, c, z, d, d).1 == MinusInfinity && Zoom(w, c, z, d, d).0.hi < Zoom(w, c, z, d, d).0.lo
  {
  }

  /** Without clamping, a zoom divides the width by the factor and keeps the cursor at the same
      relative position in the window. */
  lemma ZoomScales(w: Window, c: real, z: ZoomDirection)
    ensures Width(Scaled(w, c, Factor(z))) * Factor(z) == Width(w)
    ensures (c - Scaled(w, c, Factor(z)).lo) * Factor(z) == c - w.lo
  {
    var f := Factor(z);
    var s := Scaled(w, c, f);
    assert (c - s.lo) * f == c - w.lo;
    assert (s.hi - c) * f == w.hi - c;
    assert Width(s) * f == (s.hi - c) * f + (c - s.lo) * f;
  }

  /** Zooming in and then out around the same cursor gives the window back. */
  lemma ZoomInOut(w: Window, c: real)
    ensures Scaled(Scaled(w, c, Factor(In)), c, Factor(Out)) == w
  {
    var s := Scaled(w, c, Factor(In));
    assert (c - w.lo) / (6.0 / 5.0) / (5.0 / 6.0) == c - w.lo;
    assert (w.hi - c) / (6.0 / 5.0) / (5.0 / 6.0) == w.hi - c;
  }

  /** When the scaled window fits inside the margined range, the zoom keeps it as it is. */
  lemma ZoomUnclamped(w: Window, c: real, z: ZoomDirection, dmin: real, dmax: real)
    requires dmin < dmax
    requires var s := Scaled(w, c, Factor(z)); var m := Margined(dmin, dmax);
      m.lo <= s.lo && s.hi <= m.hi && Width(s) < Width(m)
    ensures Zoom(w, c, z, dmin, dmax).0 == Scaled(w, c, Factor(z))
  {
  }

  /** `zoom_out_to_show_all` sets the margined range. */
  function ShowAll(dmin: real, dmax: real): (r: Window)
    ensures r == Margined(dmin, dmax)
    ensures dmin <= dmax ==> Width(r) == 1.2 * (dmax - dmin)
  {
    var range := dmax - dmin;
    var margin := range * 0.1;
    Window(dmin - margin, dmax + margin)
  }

  // ---------------------------------------------------------------------------------------
  // zoom_in_on_all_labels

  /** The earliest start among the labels. */
  function MinStart(ls: seq<Labels.Label>): (r: int)
    requires ls != []
    ensures forall i :: 0 <= i < |ls| ==> r <= ls[i].start
    ensures exists i :: 0 <= i < |ls| && r == ls[i].start
  {
    if |ls| == 1 then ls[0].start
    else
      var rest := MinStart(ls[1..]);
      assert forall i :: 1 <= i < |ls| ==> ls[i] == ls[1..][i - 1];
      if ls[0].start <= rest then ls[0].start else rest
  }

  /** The latest end among the labels. */
  function MaxEnd(ls: seq<Labels.Label>): (r: int)
    requires ls != []
    ensures forall i :: 0 <= i < |ls| ==> ls[i].end <= r
    ensures exists i :: 0 <= i < |ls| && r == ls[i].end
  {
    if |ls| == 1 then ls[0].end
    else
      var rest := MaxEnd(ls[1..]);
      assert forall i :: 1 <= i < |ls| ==> ls[i] == ls[1..][i - 1];
      if ls[0].end >= rest then ls[0].end else rest
  }

  /** `zoom_in_on_all_labels`: from the earliest start to the latest end, both placed on the
      day of the data (`day`, the position of its first midnight) and cut to the data, with
      5 % of that span added on each side; nothing without labels. */
  function FitLabels(ls: seq<Labels.Label>, day: int, dmin: real, dmax: real): (r: Option<Window>)
    ensures r.Some? <==> ls != []
    ensures r.Some? ==>
      var s := Max(dmin, (day + MinStart(ls)) as real);
      var e := Min(dmax, (day + MaxEnd(ls)) as real);
      r.value == Window(s - (e - s) * 0.05, e + (e - s) * 0.05)
  {
    if ls == [] then None
    else
      var first := (day + MinStart(ls)) as real;
      var last := (day + MaxEnd(ls)) as real;
      var s := if first < dmin then dmin else first;
      var e := if last > dmax then dmax else last;
      var margin := (e - s) * 0.05;
      Some(Window(s - margin, e + margin))
  }

  /** Every label that lies inside the data is inside the fitted window. */
  lemma FitContainsLabels(ls: seq<Labels.Label>, day: int, dmin: real, dmax: real, k: nat)
    requires k < |ls| && ls[k].start <= ls[k].end
    requires dmin <= (day + ls[k].start) as real && (day + ls[k].end) as real <= dmax
    ensures var w := FitLabels(ls, day, dmin, dmax).value;
      w.lo <= (day + ls[k].start) as real && (day + ls[k].end) as real <= w.hi
  {
    var first := (day + MinStart(ls)) as real;
    var last := (day + MaxEnd(ls)) as real;
    assert first <= (day + ls[k].start) as real;
    assert (day + ls[k].end) as real <= last;
  }
}
