/** The earlier revision of the viewer (`viewer.py` at the top of the source tree): labels
    hold full timestamps and are never validated, the wheel pans with each edge clamped on
    its own and zooms without any clamp, edges are hit within a fixed hundredth of a day,
    and a right click cancels a label being drawn. Positions are microseconds since
    1900-01-01 00:00, as in the current viewer. */
module LegacyViewer {
  import opened Wrappers
  import Labels
  import Sorting
  import Viewport
  import ViewerModel

  /** This revision's `Label`: two timestamps and their difference, with no check that the
      start comes first. */
  datatype OldLabel = OldLabel(start: int, end: int, behavior: string, duration: int)

  function NewOldLabel(start: int, end: int, behavior: string): (l: OldLabel)
    ensures l.start == start && l.end == end && l.behavior == behavior
    ensures l.duration == end - start
    ensures start > end ==> l.duration < 0
  {
    OldLabel(start, end, behavior, end - start)
  }

  /** `str(label)`: the current label's rendering of the time of day of each timestamp;
      both clock times read back to the millisecond. */
  function Describe(l: OldLabel): (r: string)
    ensures |r| > |l.behavior| + 30 && r[..|l.behavior| + 3] == l.behavior + " : "
    ensures Labels.ParseTime(r[|l.behavior| + 3..|l.behavior| + 15])
            == Ok(Labels.CutToMillis(l.start % Labels.DayUs))
    ensures Labels.ParseTime(r[|l.behavior| + 18..|l.behavior| + 30])
            == Ok(Labels.CutToMillis(l.end % Labels.DayUs))
  {
    var day := Labels.Label(l.start % Labels.DayUs, l.end % Labels.DayUs, l.behavior, l.duration);
    Labels.DescribeReadsBack(day);
    Labels.Describe(day)
  }

  datatype OldSlot = OldSlot(handle: nat, item: OldLabel)

  /** A label is drawn at its own timestamps. */
  function RectOf(s: OldSlot): ViewerModel.Rect
  {
    ViewerModel.Span(s.handle, s.item.start, s.item.end)
  }

  function Drawn(slots: seq<OldSlot>): (rs: seq<ViewerModel.Rect>)
    ensures |rs| == |slots|
    ensures forall i :: 0 <= i < |slots| ==> rs[i] == RectOf(slots[i])
  {
    seq(|slots|, i requires 0 <= i < |slots| => RectOf(slots[i]))
  }

  /** 0.01 in matplotlib date numbers: a hundredth of a day. */
  const Threshold: real := (Labels.DayUs / 100) as real

  /** The rectangle hovered or clicked at `x`: the first with an edge within the threshold,
      none at the position python reads as a false `xdata`. */
  function Target(rs: seq<ViewerModel.Rect>, x: int): (r: Option<nat>)
    ensures r.None? <==> x == Viewport.FalsyPosition ||
                         forall i :: 0 <= i < |rs| ==> ViewerModel.EdgeHit(rs[i], x, Threshold, false).None?
    ensures r.Some? ==> r.value < |rs| && ViewerModel.EdgeHit(rs[r.value], x, Threshold, false).Some? &&
                        forall i :: 0 <= i < r.value ==> ViewerModel.EdgeHit(rs[i], x, Threshold, false).None?
  {
    if x == Viewport.FalsyPosition then None else ViewerModel.FirstHit(rs, x, Threshold, false)
  }

  // ---------------------------------------------------------------------------------------
  // The wheel

  /** Plain scrolling: both edges move by 5 % of the width, then each is clamped to the data
      on its own. */
  function OldPan(w: Viewport.Window, dir: Viewport.Direction, dmin: real, dmax: real): (r: Viewport.Window)
    ensures dmin <= r.lo && r.hi <= dmax
  {
    var shift := Viewport.Width(w) * 0.05;
    var moved := if dir == Viewport.Left then Viewport.Window(w.lo - shift, w.hi - shift)
                 else Viewport.Window(w.lo + shift, w.hi + shift);
    Viewport.Window(Viewport.Max(dmin, moved.lo), Viewport.Min(dmax, moved.hi))
  }

  /** The independent clamp never widens the window, and narrows it whenever an edge is cut,
      where the current viewer keeps the width. */
  lemma OldPanNarrows(w: Viewport.Window, dir: Viewport.Direction, dmin: real, dmax: real)
    ensures Viewport.Width(OldPan(w, dir, dmin, dmax)) <= Viewport.Width(w)
    ensures var shift := Viewport.Width(w) * 0.05;
      var lo := if dir == Viewport.Left then w.lo - shift else w.lo + shift;
      var hi := if dir == Viewport.Left then w.hi - shift else w.hi + shift;
      (lo < dmin || hi > dmax) <==> Viewport.Width(OldPan(w, dir, dmin, dmax)) < Viewport.Width(w)
  {
  }

  /** Ctrl-scrolling zooms around the pointer with no bound: zooming out always widens the
      window by the factor, however far past the data it already reaches. */
  lemma OldZoomUnbounded(w: Viewport.Window, c: real)
    requires w.lo < w.hi
    ensures Viewport.Width(Viewport.Scaled(w, c, Viewport.Factor(Viewport.Out))) == Viewport.Width(w) * 6.0 / 5.0
  {
    Viewport.ZoomScales(w, c, Viewport.Out);
  }

  // ---------------------------------------------------------------------------------------
  // Release

  /** The label written back on release, with its duration recomputed. */
  function Resized(l: OldLabel, edge: ViewerModel.Edge, r: ViewerModel.Rect): (n: OldLabel)
    ensures n.behavior == l.behavior && n.duration == n.end - n.start
    ensures edge == ViewerModel.StartEdge ==> n.start == r.x && n.end == l.end
    ensures edge == ViewerModel.EndEdge ==> n.end == r.x + r.width && n.start == l.start
  {
    match edge
    case StartEdge => OldLabel(r.x, l.end, l.behavior, l.end - r.x)
    case EndEdge => OldLabel(l.start, r.x + r.width, l.behavior, r.x + r.width - l.start)
  }

  /** The release as written: the bound is assigned and the duration is left as it was. */
  function ResizedAsWritten(l: OldLabel, edge: ViewerModel.Edge, r: ViewerModel.Rect): OldLabel
  {
    match edge
    case StartEdge => l.(start := r.x)
    case EndEdge => l.(end := r.x + r.width)
  }

  /** Dragging the end of a one-minute label out to two minutes leaves the listed duration
      at one minute. */
  lemma OldStaleDuration()
    ensures var l := NewOldLabel(0, Labels.MinuteUs, "Stalk");
      var d := ViewerModel.Dragged(RectOf(OldSlot(0, l)), ViewerModel.EndEdge, 2 * Labels.MinuteUs);
      ResizedAsWritten(l, ViewerModel.EndEdge, d).duration == Labels.MinuteUs &&
      Resized(l, ViewerModel.EndEdge, d).duration == 2 * Labels.MinuteUs
  {
  }

  /** After a drag and release the label still starts before it ends and its duration is
      their difference. */
  lemma OldDragReleaseKeepsOrder(l: OldLabel, edge: ViewerModel.Edge, x: int)
    requires l.start < l.end && l.duration == l.end - l.start
    ensures var n := Resized(l, edge, ViewerModel.Dragged(RectOf(OldSlot(0, l)), edge, x));
      n.start < n.end && n.duration == n.end - n.start
  {
  }

  function Released(slots: seq<OldSlot>, h: nat, edge: ViewerModel.Edge, r: ViewerModel.Rect): (rs: seq<OldSlot>)
    ensures |rs| == |slots|
    ensures forall i :: 0 <= i < |slots| ==>
      rs[i] == if slots[i].handle == h then OldSlot(h, Resized(slots[i].item, edge, r)) else slots[i]
  {
    seq(|slots|, i requires 0 <= i < |slots| =>
      if slots[i].handle == h then OldSlot(h, Resized(slots[i].item, edge, r)) else slots[i])
  }

  // ---------------------------------------------------------------------------------------
  // The label list

  function StartKey(s: OldSlot): int { s.item.start }

  /** `update_label_list`: the listbox lines, one per label in start order; the labels
      themselves keep their order. */
  function Listing(slots: seq<OldSlot>): (lines: seq<string>)
    ensures |lines| == |slots|
  {
    var sorted := Sorting.SortBy(slots, StartKey);
    seq(|sorted|, i requires 0 <= i < |sorted| => Describe(sorted[i].item))
  }

  /** The listing shows every label exactly once, earliest start first. */
  lemma ListingSorted(slots: seq<OldSlot>)
    ensures var sorted := Sorting.SortBy(slots, StartKey);
      Sorting.SortedBy(sorted, StartKey) && multiset(sorted) == multiset(slots) &&
      forall i :: 0 <= i < |sorted| ==> Listing(slots)[i] == Describe(sorted[i].item)
  {
    Sorting.SortByCorrect(slots, StartKey);
  }

  // ---------------------------------------------------------------------------------------
  // The viewer

  /** This revision always puts the kept limits back on the axes and reads them back after
      every interaction, so the two agree and one field stands for both. */
  class OldViewer {
    var labels: seq<OldSlot>
    var nextHandle: nat
    var rects: seq<ViewerModel.Rect>
    var startLabelTime: Option<int>
    var selected: Option<nat>
    var dragging: bool
    var dragEdge: ViewerModel.Edge
    var xlim: Viewport.Window
    const dataMin: int
    const dataMax: int

    ghost predicate Valid()
      reads this
    {
      forall i :: 0 <= i < |labels| ==> labels[i].handle < nextHandle
    }

    function Editing(): (Option<int>, Option<nat>, bool, ViewerModel.Edge)
      reads this
    {
      (startLabelTime, selected, dragging, dragEdge)
    }

    /** `load_data` and `set_initial_limits`: no labels, the window on the whole data. */
    constructor (dmin: int, dmax: int)
      ensures Valid()
      ensures labels == [] && nextHandle == 0 && rects == []
      ensures Editing() == (None, None, false, ViewerModel.StartEdge)
      ensures xlim == Viewport.Window(dmin as real, dmax as real)
      ensures dataMin == dmin && dataMax == dmax
    {
      labels := [];
      nextHandle := 0;
      rects := [];
      startLabelTime := None;
      selected := None;
      dragging := false;
      dragEdge := ViewerModel.StartEdge;
      xlim := Viewport.Window(dmin as real, dmax as real);
      dataMin, dataMax := dmin, dmax;
    }

    /** `on_scroll`: with control held, zoom around the pointer without a clamp (outside the
        plot there is no pointer position, and converting it fails); otherwise pan, "down"
        to the left and "up" to the right. */
    method OnScroll(x: Option<int>, control: bool, up: bool) returns (err: Option<Error>)
      modifies this
      ensures control && x.None? ==> err == Some(TypeError) && xlim == old(xlim)
      ensures control && x.Some? ==>
        err == None && xlim == Viewport.Scaled(old(xlim), x.value as real,
                                               Viewport.Factor(if up then Viewport.In else Viewport.Out))
      ensures !control ==>
        err == None && xlim == OldPan(old(xlim), if up then Viewport.Right else Viewport.Left,
                                      dataMin as real, dataMax as real)
      ensures labels == old(labels) && nextHandle == old(nextHandle) && rects == old(rects)
      ensures Editing() == old(Editing())
    {
      if control {
        if x.None? {
          return Some(TypeError);
        }
        xlim := Viewport.Scaled(xlim, x.value as real, Viewport.Factor(if up then Viewport.In else Viewport.Out));
      } else {
        xlim := OldPan(xlim, if up then Viewport.Right else Viewport.Left, dataMin as real, dataMax as real);
      }
      return None;
    }

    /** The loop over the rectangles shared by hovering and clicking. */
    method HitTest(x: int) returns (hit: Option<nat>)
      ensures hit == ViewerModel.FirstHit(rects, x, Threshold, false)
    {
      var i := 0;
      while i < |rects|
        invariant 0 <= i <= |rects|
        invariant forall j :: 0 <= j < i ==> ViewerModel.EdgeHit(rects[j], x, Threshold, false).None?
      {
        if ViewerModel.EdgeHit(rects[i], x, Threshold, false).Some? {
          return Some(i);
        }
        i := i + 1;
      }
      return None;
    }

    /** `on_mouse_move`: a drag inside the plot moves the selected rectangle's edge; otherwise
        the first rectangle with an edge within the threshold becomes the selection. */
    method OnMouseMove(x: Option<int>) returns (err: Option<Error>)
      modifies this
      ensures labels == old(labels) && nextHandle == old(nextHandle) && xlim == old(xlim)
      ensures startLabelTime == old(startLabelTime) && dragging == old(dragging) && dragEdge == old(dragEdge)
      ensures x.Some? && old(dragging) && old(selected).Some? ==>
        selected == old(selected) &&
        match ViewerModel.RectIndex(old(rects), old(selected).value)
        case None => err == Some(ViewerModel.RectMissing) && rects == old(rects)
        case Some(k) => err == None && rects == old(rects)[k := ViewerModel.Dragged(old(rects)[k], dragEdge, x.value)]
      ensures !(x.Some? && old(dragging) && old(selected).Some?) ==>
        err == None && rects == old(rects) &&
        var t := if x.None? then None else Target(rects, x.value);
        selected == if t.Some? then Some(rects[t.value].handle) else None
    {
      if x.Some? && dragging && selected.Some? {
        var k := ViewerModel.RectIndex(rects, selected.value);
        if k.None? {
          return Some(ViewerModel.RectMissing);
        }
        rects := rects[k.value := ViewerModel.Dragged(rects[k.value], dragEdge, x.value)];
        return None;
      }
      var hit: Option<nat> := None;
      if x.Some? && x.value != Viewport.FalsyPosition {
        hit := HitTest(x.value);
      }
      selected := if hit.Some? then Some(rects[hit.value].handle) else None;
      return None;
    }

    /** `on_click`. A left click near an edge starts dragging it. Otherwise the first click
        remembers the position and the second adds a label when a behaviour is chosen
        (`choice`) and ends the drawing either way; a right click cancels a drawing. Every
        click that does not start a drag redraws the rectangles. */
    method OnClick(button: nat, x: Option<int>, choice: Option<string>)
      requires Valid()
      modifies this
      ensures Valid()
      ensures xlim == old(xlim)
      ensures x.None? ==> labels == old(labels) && rects == old(rects) && Editing() == old(Editing())
      ensures x.Some? && button == 1 && Target(old(rects), x.value).Some? ==>
        var k := Target(old(rects), x.value).value;
        labels == old(labels) && nextHandle == old(nextHandle) && rects == old(rects) &&
        selected == Some(old(rects)[k].handle) && dragging && startLabelTime == old(startLabelTime) &&
        dragEdge == ViewerModel.EdgeHit(old(rects)[k], x.value, Threshold, false).value.edge
      ensures (x.Some? && button == 1 && Target(old(rects), x.value).None? && old(startLabelTime).Some?) ==>
        startLabelTime == None && rects == Drawn(labels) &&
        if choice.Some? && choice.value != "" then
          labels == old(labels) + [OldSlot(old(nextHandle), NewOldLabel(old(startLabelTime).value, x.value, choice.value))] &&
          nextHandle == old(nextHandle) + 1
        else
          labels == old(labels) && nextHandle == old(nextHandle)
      ensures (x.Some? && button == 1 && Target(old(rects), x.value).None? && old(startLabelTime).None?) ==>
        startLabelTime == Some(x.value) && labels == old(labels) && rects == Drawn(labels)
      ensures x.Some? && button != 1 ==>
        labels == old(labels) && nextHandle == old(nextHandle) && rects == Drawn(labels) &&
        startLabelTime == (if button == 3 then None else old(startLabelTime)) &&
        selected == old(selected) && dragging == old(dragging) && dragEdge == old(dragEdge)
    {
      if x.None? {
        return;
      }
      var v := x.value;
      if button == 1 {
        var hit: Option<nat> := None;
        if v != Viewport.FalsyPosition {
          hit := HitTest(v);
        }
        if hit.Some? {
          var r := rects[hit.value];
          selected := Some(r.handle);
          dragging := true;
          dragEdge := ViewerModel.EdgeHit(r, v, Threshold, false).value.edge;
          return;
        }
        if startLabelTime.Some? {
          if choice.Some? && choice.value != "" {
            labels := labels + [OldSlot(nextHandle, NewOldLabel(startLabelTime.value, v, choice.value))];
            nextHandle := nextHandle + 1;
          }
          startLabelTime := None;
        } else {
          startLabelTime := Some(v);
        }
      } else if button == 3 {
        startLabelTime := None;
      }
      rects := Drawn(labels);
    }

    /** `on_mouse_release`: after a drag, the selected label takes the dragged edge of its
        rectangle as its new bound, dragging ends and the rectangles are redrawn. */
    method OnMouseRelease() returns (err: Option<Error>)
      requires Valid()
      modifies this
      ensures Valid()
      ensures xlim == old(xlim) && nextHandle == old(nextHandle) && startLabelTime == old(startLabelTime)
      ensures selected == old(selected) && dragEdge == old(dragEdge)
      ensures !(old(dragging) && old(selected).Some?) ==>
        err == None && labels == old(labels) && rects == old(rects) && dragging == old(dragging)
      ensures old(dragging) && old(selected).Some? && ViewerModel.RectIndex(old(rects), old(selected).value).None? ==>
        err == Some(ViewerModel.RectMissing) && labels == old(labels) && rects == old(rects) && dragging
      ensures old(dragging) && old(selected).Some? && ViewerModel.RectIndex(old(rects), old(selected).value).Some? ==>
        var r := old(rects)[ViewerModel.RectIndex(old(rects), old(selected).value).value];
        err == None && labels == Released(old(labels), old(selected).value, old(dragEdge), r) &&
        !dragging && rects == Drawn(labels)
    {
      if !(dragging && selected.Some?) {
        return None;
      }
      var k := ViewerModel.RectIndex(rects, selected.value);
      if k.None? {
        return Some(ViewerModel.RectMissing);
      }
      labels := Released(labels, selected.value, dragEdge, rects[k.value]);
      dragging := false;
      rects := Drawn(labels);
      return None;
    }
  }
}
