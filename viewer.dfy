/** The annotation engine of the data viewer (`gui_components/viewer.py`): the labels of the
    open file, the rectangles drawn for them, the two-click creation of a label, hover and
    edge dragging, deletion and recategorisation, and the view window kept across redraws.

    Positions on the time axis are microseconds since 1900-01-01 00:00, the day every label
    rectangle is drawn on; pointer positions are integers, view limits exact reals. Python
    keys the rectangles by the label objects themselves, so each label carries a handle
    standing for its identity. */
module ViewerModel {
  import opened Wrappers
  import opened Labels
  import Sorting
  import Paths
  import Viewport
  import Overlap

  /** A label of the open file and the identity of the python object holding it. */
  datatype Slot = Slot(handle: nat, item: Label)

  /** A drawn rectangle: the handle of its label, its left edge and its width. */
  datatype Rect = Rect(handle: nat, x: int, width: int)

  datatype Edge = StartEdge | EndEdge

  /** What a pointer position hits on a rectangle: one of its edges, or its inside. */
  datatype Hit = Near(edge: Edge) | Inside

  function LabelsOf(slots: seq<Slot>): (ls: seq<Label>)
    ensures |ls| == |slots|
    ensures forall i :: 0 <= i < |slots| ==> ls[i] == slots[i].item
  {
    seq(|slots|, i requires 0 <= i < |slots| => slots[i].item)
  }

  function StartKey(s: Slot): int { s.item.start }

  /** The rectangle of an interval: its left edge at the start and its width the length. */
  function Span(handle: nat, start: int, end: int): Rect
  {
    Rect(handle, start, end - start)
  }

  /** A label is drawn on the reference day, whose midnight is position 0. */
  function RectOf(s: Slot): Rect
  {
    Span(s.handle, s.item.start, s.item.end)
  }

  /** The rectangles `plot_data` rebuilds, one per label in list order. */
  function Drawn(slots: seq<Slot>): (rs: seq<Rect>)
    ensures |rs| == |slots|
    ensures forall i :: 0 <= i < |slots| ==> rs[i] == RectOf(slots[i])
  {
    seq(|slots|, i requires 0 <= i < |slots| => RectOf(slots[i]))
  }

  // ---------------------------------------------------------------------------------------
  // Handles

  predicate Distinct(slots: seq<Slot>)
  {
    forall i, j :: 0 <= i < j < |slots| ==> slots[i].handle != slots[j].handle
  }

  function Handles(slots: seq<Slot>): set<nat>
  {
    set i | 0 <= i < |slots| :: slots[i].handle
  }

  lemma HandlesCons(x: Slot, s: seq<Slot>)
    ensures Handles([x] + s) == {x.handle} + Handles(s)
  {
    var r := [x] + s;
    forall k | k in Handles(r)
      ensures k in {x.handle} + Handles(s)
    {
      var j :| 0 <= j < |r| && r[j].handle == k;
      if j > 0 {
        assert r[j] == s[j - 1];
      }
    }
    forall k | k in Handles(s)
      ensures k in Handles(r)
    {
      var j :| 0 <= j < |s| && s[j].handle == k;
      assert r[j + 1] == s[j];
    }
    assert r[0] == x;
  }

  lemma {:induction false} InsertDistinct(x: Slot, s: seq<Slot>)
    requires Distinct(s) && x.handle !in Handles(s)
    ensures Distinct(Sorting.Insert(x, s, StartKey))
    ensures Handles(Sorting.Insert(x, s, StartKey)) == {x.handle} + Handles(s)
  {
    var r := Sorting.Insert(x, s, StartKey);
    if s == [] || StartKey(x) <= StartKey(s[0]) {
      HandlesCons(x, s);
      ConsDistinct(x, s);
    } else {
      var rest := Sorting.Insert(x, s[1..], StartKey);
      assert s == [s[0]] + s[1..];
      HandlesCons(s[0], s[1..]);
      TailDistinct(s);
      InsertDistinct(x, s[1..]);
      HandlesCons(s[0], rest);
      ConsDistinct(s[0], rest);
    }
  }

  lemma ConsDistinct(x: Slot, s: seq<Slot>)
    requires Distinct(s) && x.handle !in Handles(s)
    ensures Distinct([x] + s)
  {
    var r := [x] + s;
    forall i, j | 0 <= i < j < |r|
      ensures r[i].handle != r[j].handle
    {
      assert r[j] == s[j - 1];
      if i > 0 {
        assert r[i] == s[i - 1];
      } else {
        assert s[j - 1].handle in Handles(s);
      }
    }
  }

  lemma TailDistinct(s: seq<Slot>)
    requires s != [] && Distinct(s)
    ensures Distinct(s[1..]) && s[0].handle !in Handles(s[1..])
  {
    forall j | 0 <= j < |s| - 1
      ensures s[1..][j].handle != s[0].handle
    {
      assert s[1..][j] == s[j + 1];
    }
  }

  /** Sorting the labels by start keeps every handle and keeps them distinct. */
  lemma {:induction false} SortDistinct(s: seq<Slot>)
    requires Distinct(s)
    ensures Distinct(Sorting.SortBy(s, StartKey))
    ensures Handles(Sorting.SortBy(s, StartKey)) == Handles(s)
  {
    if s != [] {
      assert s == [s[0]] + s[1..];
      TailDistinct(s);
      SortDistinct(s[1..]);
      HandlesCons(s[0], s[1..]);
      InsertDistinct(s[0], Sorting.SortBy(s[1..], StartKey));
    }
  }

  /** The first slot holding the object with handle `h`, as `list.index` finds it. */
  function IndexOfHandle(slots: seq<Slot>, h: nat): (r: Option<nat>)
    ensures r.Some? ==> r.value < |slots| && slots[r.value].handle == h
    ensures forall i :: 0 <= i < |slots| && (r.None? || i < r.value) ==> slots[i].handle != h
  {
    if slots == [] then None
    else if slots[0].handle == h then Some(0)
    else match IndexOfHandle(slots[1..], h)
      case None => None
      case Some(k) => Some(k + 1)
  }

  /** The rectangle stored under handle `h` (the dict lookup `rectangles[label]`). */
  function RectIndex(rs: seq<Rect>, h: nat): (r: Option<nat>)
    ensures r.Some? ==> r.value < |rs| && rs[r.value].handle == h
    ensures r.None? ==> forall i :: 0 <= i < |rs| ==> rs[i].handle != h
  {
    if rs == [] then None
    else if rs[0].handle == h then Some(0)
    else match RectIndex(rs[1..], h)
      case None => None
      case Some(k) => Some(k + 1)
  }

  /** The `KeyError` of `rectangles[selected_label]` when the selected label has no
      rectangle (it was deleted while selected). */
  const RectMissing: Error := KeyError("selected_label")

  /** `list.remove` of an object that is not in the list. */
  const NotInList: Error := ValueError("list.remove(x): x not in list")

  // ---------------------------------------------------------------------------------------
  // Hit testing and dragging

  function Abs(v: real): real { if v < 0.0 then -v else v }

  /** 0.5 % of the visible width. */
  function Threshold(w: Viewport.Window): real
  {
    Viewport.Width(w) * 0.005
  }

  /** The test of one rectangle: its start edge within the threshold, else its end edge,
      else, when `inside` is allowed, strictly between them. */
  function EdgeHit(r: Rect, x: int, th: real, inside: bool): (h: Option<Hit>)
    ensures h == Some(Near(StartEdge)) <==> Abs((r.x - x) as real) <= th
    ensures h == Some(Near(EndEdge)) ==> Abs((r.x + r.width - x) as real) <= th
    ensures h == Some(Inside) ==> inside && r.x < x < r.x + r.width
    ensures h.Some? && r.width >= 0 && th >= 0.0 ==> (r.x - x) as real <= th && (x - r.x - r.width) as real <= th
  {
    if Abs((r.x - x) as real) <= th then Some(Near(StartEdge))
    else if Abs((r.x + r.width - x) as real) <= th then Some(Near(EndEdge))
    else if inside && r.x < x < r.x + r.width then Some(Inside)
    else None
  }

  /** The first rectangle in drawing order that the position hits. */
  function FirstHit(rs: seq<Rect>, x: int, th: real, inside: bool): (r: Option<nat>)
    ensures r.Some? ==> r.value < |rs| && EdgeHit(rs[r.value], x, th, inside).Some?
    ensures forall i :: 0 <= i < |rs| && (r.None? || i < r.value) ==> EdgeHit(rs[i], x, th, inside).None?
  {
    if rs == [] then None
    else if EdgeHit(rs[0], x, th, inside).Some? then Some(0)
    else match FirstHit(rs[1..], x, th, inside)
      case None => None
      case Some(k) => Some(k + 1)
  }

  /** What a pointer position selects: the loops test nothing at the one position whose date
      number python reads as false, and otherwise take the first hit. */
  function Target(rs: seq<Rect>, w: Viewport.Window, x: int, inside: bool): (r: Option<nat>)
    ensures r.None? <==> x == Viewport.FalsyPosition ||
                         forall i :: 0 <= i < |rs| ==> EdgeHit(rs[i], x, Threshold(w), inside).None?
    ensures r.Some? ==> r.value < |rs| && EdgeHit(rs[r.value], x, Threshold(w), inside).Some? &&
                        forall i :: 0 <= i < r.value ==> EdgeHit(rs[i], x, Threshold(w), inside).None?
  {
    if x == Viewport.FalsyPosition then None else FirstHit(rs, x, Threshold(w), inside)
  }

  /** A pointer exactly on the reference midnight, where a label drawn from 00:00 begins, is
      on that label's start edge. */
  lemma HitAtReferenceMidnight(l: Label)
    requires l.start == 0 && l.start < l.end
    ensures var w := Viewport.Window(0.0, DayUs as real);
      Target(Drawn([Slot(0, l)]), w, 0, false) == Some(0) &&
      EdgeHit(Drawn([Slot(0, l)])[0], 0, Threshold(w), false) == Some(Near(StartEdge))
  {
  }

  /** A rectangle while its edge follows the pointer: the start edge moves only to positions
      before the end, the end edge only to positions after the start. */
  function Dragged(r: Rect, edge: Edge, x: int): (d: Rect)
    ensures d.handle == r.handle
    ensures edge == StartEdge ==> d.x + d.width == r.x + r.width
    ensures edge == EndEdge ==> d.x == r.x
    ensures d != r ==> d.width > 0
    ensures edge == StartEdge && x < r.x + r.width ==> d.x == x
    ensures edge == EndEdge && x > r.x ==> d.x + d.width == x
    ensures (edge == StartEdge && x >= r.x + r.width) || (edge == EndEdge && x <= r.x) ==> d == r
  {
    match edge
    case StartEdge => if x < r.x + r.width then Rect(r.handle, x, r.x + r.width - x) else r
    case EndEdge => if x > r.x then Rect(r.handle, r.x, x - r.x) else r
  }

  /** The label written back on release: the dragged bound becomes the time of day of the
      rectangle's edge, and the duration is recomputed. */
  function Resized(l: Label, edge: Edge, r: Rect): (n: Label)
    ensures n.behavior == l.behavior && n.duration == n.end - n.start
    ensures edge == StartEdge ==> n.start == r.x % DayUs && n.end == l.end
    ensures edge == EndEdge ==> n.end == (r.x + r.width) % DayUs && n.start == l.start
  {
    match edge
    case StartEdge => var s := r.x % DayUs; Label(s, l.end, l.behavior, l.end - s)
    case EndEdge => var e := (r.x + r.width) % DayUs; Label(l.start, e, l.behavior, e - l.start)
  }

  /** The release as written: only the dragged bound is assigned and the stored duration is
      the one computed when the label was made. */
  function ResizedAsWritten(l: Label, edge: Edge, r: Rect): Label
  {
    match edge
    case StartEdge => l.(start := r.x % DayUs)
    case EndEdge => l.(end := (r.x + r.width) % DayUs)
  }

  /** Dragging the start of 10:00-10:05 back to 09:58 and releasing leaves the label claiming
      a five-minute duration for a seven-minute interval, which `str(label)` then shows. */
  lemma StaleDuration()
    ensures var l := Label(10 * HourUs, 10 * HourUs + 5 * MinuteUs, "walk", 5 * MinuteUs);
      var d := Dragged(RectOf(Slot(0, l)), StartEdge, 9 * HourUs + 58 * MinuteUs);
      Valid(l) && !Valid(ResizedAsWritten(l, StartEdge, d)) && Valid(Resized(l, StartEdge, d))
  {
  }

  /** A drag that stays on the reference day and is released keeps the label valid: start
      before end, and the duration their difference. */
  lemma DragReleaseValid(l: Label, edge: Edge, x: int)
    requires Valid(l) && 0 <= x < DayUs
    ensures Valid(Resized(l, edge, Dragged(RectOf(Slot(0, l)), edge, x)))
  {
  }

  /** Every slot of object `h` gets the resized label; python mutates that one object. */
  function Released(slots: seq<Slot>, h: nat, edge: Edge, r: Rect): (rs: seq<Slot>)
    ensures |rs| == |slots|
    ensures forall i :: 0 <= i < |slots| ==> rs[i].handle == slots[i].handle
    ensures forall i :: 0 <= i < |slots| ==>
      rs[i].item == if slots[i].handle == h then Resized(slots[i].item, edge, r) else slots[i].item
  {
    seq(|slots|, i requires 0 <= i < |slots| =>
      if slots[i].handle == h then Slot(h, Resized(slots[i].item, edge, r)) else slots[i])
  }

  /** `label.behavior = new_behavior` on object `h`. */
  function Relabelled(slots: seq<Slot>, h: nat, behavior: string): (rs: seq<Slot>)
    ensures |rs| == |slots|
    ensures forall i :: 0 <= i < |slots| ==>
      (rs[i].handle == slots[i].handle && rs[i].item.start == slots[i].item.start &&
       rs[i].item.end == slots[i].item.end && rs[i].item.duration == slots[i].item.duration)
    ensures forall i :: 0 <= i < |slots| ==>
      rs[i].item.behavior == if slots[i].handle == h then behavior else slots[i].item.behavior
  {
    seq(|slots|, i requires 0 <= i < |slots| =>
      if slots[i].handle == h then Slot(h, slots[i].item.(behavior := behavior)) else slots[i])
  }

  // ---------------------------------------------------------------------------------------
  // y limits

  /** The lowest minimum and the highest maximum of the displayed columns. */
  function Bounds(cols: seq<(real, real)>): (r: (real, real))
    requires cols != []
    ensures forall i :: 0 <= i < |cols| ==> r.0 <= cols[i].0 && cols[i].1 <= r.1
    ensures (exists i :: 0 <= i < |cols| && r.0 == cols[i].0) && (exists j :: 0 <= j < |cols| && r.1 == cols[j].1)
  {
    if |cols| == 1 then cols[0]
    else
      var r := Bounds(cols[..|cols| - 1]);
      var c := cols[|cols| - 1];
      assert forall i :: 0 <= i < |cols| - 1 ==> cols[..|cols| - 1][i] == cols[i];
      (if c.0 < r.0 then c.0 else r.0, if c.1 > r.1 then c.1 else r.1)
  }

  /** `set_y_limits`: the bounds of the columns, or -1..1 when there are none. */
  function YRange(cols: seq<(real, real)>): (r: (real, real))
    ensures cols == [] ==> r == (-1.0, 1.0)
    ensures cols != [] ==> r == Bounds(cols)
  {
    if cols == [] then (-1.0, 1.0) else Bounds(cols)
  }

  // ---------------------------------------------------------------------------------------
  // get_data_path

  /** `s.replace(pat, sub)`: every occurrence, scanning left to right without overlap. */
  function ReplaceAll(s: string, pat: string, sub: string): string
    requires pat != []
    decreases |s|
  {
    if |s| < |pat| then s
    else if s[..|pat|] == pat then sub + ReplaceAll(s[|pat|..], pat, sub)
    else [s[0]] + ReplaceAll(s[1..], pat, sub)
  }

  lemma {:induction false} DropExtension(stem: string)
    requires '.' !in stem
    ensures ReplaceAll(stem + ".csv", ".csv", "") == stem
  {
    var s := stem + ".csv";
    if stem == [] {
      assert s[..4] == ".csv" && s[4..] == [];
    } else {
      assert s[0] != '.';
      assert s[1..] == stem[1..] + ".csv";
      DropExtension(stem[1..]);
      assert [stem[0]] + stem[1..] == stem;
    }
  }

  /** `get_data_path`: the file name after the last '/', with ".csv" removed; nothing for
      an empty or missing path. */
  function DataName(path: Option<string>): (r: Option<string>)
    ensures r.Some? <==> path.Some? && path.value != ""
    ensures r.Some? ==> '/' !in r.value
  {
    if path.None? || path.value == "" then None
    else
      var base := Paths.Basename(path.value);
      var name := ReplaceAll(base, ".csv", "");
      assert forall i :: 0 <= i < |name| ==> name[i] in base by {
        ReplaceKeeps(base, ".csv", "");
      }
      Some(name)
  }

  lemma {:induction false} ReplaceKeeps(s: string, pat: string, sub: string)
    requires pat != []
    ensures forall c :: c in ReplaceAll(s, pat, sub) ==> c in s || c in sub
    decreases |s|
  {
    if |s| >= |pat| {
      if s[..|pat|] == pat {
        ReplaceKeeps(s[|pat|..], pat, sub);
      } else {
        ReplaceKeeps(s[1..], pat, sub);
      }
    }
  }

  /** A CSV file's name comes back without its directory and extension. */
  lemma DataNameOf(dir: string, stem: string)
    requires '/' !in stem && '.' !in stem
    ensures DataName(Some(dir + "/" + stem + ".csv")) == Some(stem)
  {
    assert dir + "/" + stem + ".csv" == dir + "/" + (stem + ".csv");
    Paths.BasenameAfter(dir, stem + ".csv");
    DropExtension(stem);
  }

  // ---------------------------------------------------------------------------------------
  // Creating a label

  /** The loop of `validate_user_label_times` over the sorted labels. */
  method AdjustTimes(ls: seq<Label>, s0: Tod, e0: Tod, buffer: int) returns (r: Result<(Tod, Tod)>)
    ensures r == Overlap.Adjust(ls, s0, e0, buffer)
  {
    var s: Tod, e: Tod := s0, e0;
    var i := 0;
    while i < |ls|
      invariant 0 <= i <= |ls|
      invariant Overlap.Adjust(ls, s0, e0, buffer) == Overlap.Adjust(ls[i..], s, e, buffer)
    {
      assert ls[i..][0] == ls[i] && ls[i..][1..] == ls[i + 1..];
      var l := ls[i];
      if l.start <= s <= l.end {
        if l.end + buffer < 0 {
          return Err(OverflowError);
        }
        s := (l.end + buffer) % DayUs;
      }
      if l.start <= e <= l.end {
        if l.start - buffer < 0 {
          return Err(OverflowError);
        }
        e := (l.start - buffer) % DayUs;
      }
      if s > e {
        s, e := e, s;
      }
      i := i + 1;
    }
    return Ok((s, e));
  }

  /** The labels, the next handle and the error after a second left click: the labels are
      sorted by the validation (also when it then fails), and a label is added only when a
      behaviour was chosen and the constructor accepts the validated times. */
  datatype Outcome = Outcome(slots: seq<Slot>, next: nat, error: Option<Error>)

  function SecondClick(slots: seq<Slot>, next: nat, pending: int, v: int, choice: Option<string>,
                       step: Result<int>): Outcome
  {
    if step.Err? then Outcome(slots, next, Some(step.error))
    else
      var sorted := Sorting.SortBy(slots, StartKey);
      var times := Overlap.ValidateApart(LabelsOf(sorted), pending, v, step.value * 1000);
      if times.Err? then Outcome(sorted, next, Some(times.error))
      else if choice.None? || choice.value == "" then Outcome(sorted, next, None)
      else match NewLabel(Given(times.value.0), Given(times.value.1), choice.value)
        case Err(e) => Outcome(sorted, next, Some(e))
        case Ok(l) => Outcome(sorted + [Slot(next, l)], next + 1, None)
  }

  predicate Fresh(slots: seq<Slot>, next: nat)
  {
    Distinct(slots) && forall i :: 0 <= i < |slots| ==> slots[i].handle < next
  }

  lemma SortKeepsValid(slots: seq<Slot>, next: nat)
    requires Fresh(slots, next)
    ensures Fresh(Sorting.SortBy(slots, StartKey), next)
  {
    SortDistinct(slots);
    var sorted := Sorting.SortBy(slots, StartKey);
    forall i | 0 <= i < |sorted|
      ensures sorted[i].handle < next
    {
      assert sorted[i].handle in Handles(sorted);
    }
  }

  lemma AppendFresh(slots: seq<Slot>, x: Slot, next: nat)
    requires Fresh(slots, next) && x.handle == next
    ensures Fresh(slots + [x], next + 1)
  {
    var r := slots + [x];
    forall i, j | 0 <= i < j < |r|
      ensures r[i].handle != r[j].handle
    {
      assert r[i] == slots[i];
    }
  }

  /** Removing the slot at `i` keeps the others fresh and distinct and drops exactly its
      handle. */
  lemma RemoveFresh(slots: seq<Slot>, i: nat, next: nat)
    requires Fresh(slots, next) && i < |slots|
    ensures var r := slots[..i] + slots[i + 1..];
      Fresh(r, next) && Handles(r) == Handles(slots) - {slots[i].handle}
  {
    var r := slots[..i] + slots[i + 1..];
    assert forall j :: 0 <= j < |r| ==> r[j] == if j < i then slots[j] else slots[j + 1];
    forall k | k in Handles(slots) && k != slots[i].handle
      ensures k in Handles(r)
    {
      var j :| 0 <= j < |slots| && slots[j].handle == k;
      if j < i {
        assert r[j] == slots[j];
      } else {
        assert r[j - 1] == slots[j];
      }
    }
  }

  /** A second click keeps the labels it had, reordered by start, and adds at most one: a
      valid label with the chosen behaviour and a fresh handle, clear of every label it had,
      exactly when a behaviour was chosen and nothing failed. */
  lemma SecondClickAdds(slots: seq<Slot>, next: nat, pending: int, v: int, choice: Option<string>, step: Result<int>)
    requires Fresh(slots, next)
    ensures Fresh(SecondClick(slots, next, pending, v, choice, step).slots, SecondClick(slots, next, pending, v, choice, step).next)
    ensures var out := SecondClick(slots, next, pending, v, choice, step);
      |slots| <= |out.slots| && multiset(out.slots[..|slots|]) == multiset(slots)
    ensures var out := SecondClick(slots, next, pending, v, choice, step);
      step.Ok? ==> out.slots[..|slots|] == Sorting.SortBy(slots, StartKey)
    ensures var out := SecondClick(slots, next, pending, v, choice, step);
      out.error.None? && choice.Some? && choice.value != "" <==> |out.slots| == |slots| + 1
    ensures var out := SecondClick(slots, next, pending, v, choice, step);
      |out.slots| == |slots| + 1 ==>
        out.next == next + 1 && out.slots[|slots|].handle == next &&
        Valid(out.slots[|slots|].item) && out.slots[|slots|].item.behavior == choice.value
    ensures var out := SecondClick(slots, next, pending, v, choice, step);
      |out.slots| == |slots| + 1 ==>
        forall i :: 0 <= i < |slots| ==>
          Overlap.Apart(out.slots[i].item, out.slots[|slots|].item.start, out.slots[|slots|].item.end)
    ensures var out := SecondClick(slots, next, pending, v, choice, step);
      |out.slots| == |slots| ==> out.next == next
  {
    var out := SecondClick(slots, next, pending, v, choice, step);
    assert slots[..|slots|] == slots;
    if step.Err? {
      return;
    }
    var sorted := Sorting.SortBy(slots, StartKey);
    Sorting.SortByCorrect(slots, StartKey);
    SortKeepsValid(slots, next);
    assert sorted[..|slots|] == sorted;
    var times := Overlap.ValidateApart(LabelsOf(sorted), pending, v, step.value * 1000);
    if times.Err? || choice.None? || choice.value == "" {
      assert out.slots == sorted;
      return;
    }
    var made := NewLabel(Given(times.value.0), Given(times.value.1), choice.value);
    if made.Err? {
      assert out.slots == sorted;
      return;
    }
    assert out == Outcome(sorted + [Slot(next, made.value)], next + 1, None);
    assert out.slots[..|slots|] == sorted;
    AppendFresh(sorted, Slot(next, made.value), next);
  }

  /** The pending start on the left click's target: what `on_click` tests with `inside`
      allowed only while no label is being drawn. */
  function ClickTarget(rs: seq<Rect>, w: Viewport.Window, x: int, pending: Option<int>): Option<nat>
  {
    Target(rs, w, x, pending.None?)
  }

  // ---------------------------------------------------------------------------------------
  // The viewer

  class Viewer {
    var labels: seq<Slot>
    var nextHandle: nat
    /** The rectangles dict, in insertion order. */
    var rects: seq<Rect>
    /** The first click of a label being drawn. */
    var startLabelTime: Option<int>
    /** The handle of `selected_label`. */
    var selected: Option<nat>
    var dragging: bool
    var dragEdge: Edge
    /** `ax.get_xlim()`. */
    var axXlim: Viewport.Window
    /** The limits kept across redraws. */
    var currentXlim: Option<Viewport.Window>
    var currentYlim: Option<(real, real)>
    /** Calls of `save_labels_to_project_config`. */
    ghost var saves: nat

    /** The loaded data: its first and last timestamp, the position of the midnight that
        starts its first day, the minimum and maximum of each displayed column, and the
        path it was read from. */
    const dataMin: int
    const dataMax: int
    const dataDay: int
    const columns: seq<(real, real)>
    const dataPath: Option<string>
    /** The limits matplotlib's autoscaling gives a redraw while no limits are kept. */
    const autoXlim: Viewport.Window

    ghost predicate Valid()
      reads this
    {
      Fresh(labels, nextHandle)
    }

    ghost function Stored(): (seq<Slot>, nat, nat)
      reads this
    {
      (labels, nextHandle, saves)
    }

    function Editing(): (Option<int>, Option<nat>, bool, Edge)
      reads this
    {
      (startLabelTime, selected, dragging, dragEdge)
    }

    function Shown(): (seq<Rect>, Viewport.Window, Option<Viewport.Window>, Option<(real, real)>)
      reads this
    {
      (rects, axXlim, currentXlim, currentYlim)
    }

    /** What `plot_data` leaves on screen: the labels' rectangles, the y limits of the
        columns, and the kept x limits or, without them, the autoscaled window. */
    predicate Redrawn()
      reads this
    {
      rects == Drawn(labels) && currentYlim == Some(YRange(columns)) &&
      axXlim == if currentXlim.Some? then currentXlim.value else autoXlim
    }

    /** A viewer that has just loaded a file with the given labels. */
    constructor (ls: seq<Label>, dmin: int, dmax: int, day: int, cols: seq<(real, real)>,
                 path: Option<string>, auto: Viewport.Window)
      ensures Valid()
      ensures LabelsOf(labels) == ls && nextHandle == |ls| && saves == 0
      ensures Editing() == (None, None, false, StartEdge)
      ensures rects == Drawn(labels) && axXlim == auto && currentXlim == None
      ensures currentYlim == Some(YRange(cols))
      ensures dataMin == dmin && dataMax == dmax && dataDay == day && columns == cols
      ensures dataPath == path && autoXlim == auto
    {
      labels := seq(|ls|, i requires 0 <= i < |ls| => Slot(i, ls[i]));
      nextHandle := |ls|;
      startLabelTime := None;
      selected := None;
      dragging := false;
      dragEdge := StartEdge;
      currentXlim := None;
      saves := 0;
      dataMin, dataMax, dataDay, columns, dataPath, autoXlim := dmin, dmax, day, cols, path, auto;
      new;
      PlotData();
    }

    /** `set_y_limits`. */
    method SetYLimits()
      modifies this
      ensures currentYlim == Some(YRange(columns))
      ensures Stored() == old(Stored()) && Editing() == old(Editing())
      ensures rects == old(rects) && axXlim == old(axXlim) && currentXlim == old(currentXlim)
    {
      var lo: Option<real> := None;
      var hi: Option<real> := None;
      var i := 0;
      while i < |columns|
        invariant 0 <= i <= |columns|
        invariant i == 0 ==> lo.None? && hi.None?
        invariant i > 0 ==> lo.Some? && hi.Some? && (lo.value, hi.value) == Bounds(columns[..i])
      {
        var (cmin, cmax) := columns[i];
        if lo.None? || cmin < lo.value {
          lo := Some(cmin);
        }
        if hi.None? || cmax > hi.value {
          hi := Some(cmax);
        }
        assert columns[..i + 1][..i] == columns[..i];
        i := i + 1;
      }
      assert columns[..i] == columns;
      if lo.None? || hi.None? {
        currentYlim := Some((-1.0, 1.0));
      } else {
        currentYlim := Some((lo.value, hi.value));
      }
    }

    /** `plot_data`: rebuild the rectangles, reset the y limits, and put back the kept x
        limits; without kept limits the axes autoscale. */
    method PlotData()
      modifies this
      ensures Stored() == old(Stored()) && Editing() == old(Editing())
      ensures rects == Drawn(labels) && currentYlim == Some(YRange(columns))
      ensures currentXlim == old(currentXlim)
      ensures axXlim == if currentXlim.Some? then currentXlim.value else autoXlim
    {
      rects := Drawn(labels);
      SetYLimits();
      axXlim := if currentXlim.Some? then currentXlim.value else autoXlim;
    }

    // -------------------------------------------------------------------------------------
    // The view window

    /** `pan` (the arrow keys and the plain wheel): the window moves and is kept. */
    method Pan(dir: Viewport.Direction) returns (status: Viewport.PanStatus)
      modifies this
      ensures (axXlim, status) == Viewport.Pan(old(axXlim), dir, dataMin as real, dataMax as real)
      ensures currentXlim == Some(axXlim)
      ensures Stored() == old(Stored()) && Editing() == old(Editing())
      ensures rects == old(rects) && currentYlim == old(currentYlim)
    {
      var r := Viewport.Pan(axXlim, dir, dataMin as real, dataMax as real);
      axXlim := r.0;
      status := r.1;
      currentXlim := Some(axXlim);
    }

    /** `zoom`: the axes change but the kept limits do not, so the next redraw undoes it. */
    method Zoom(c: real, z: Viewport.ZoomDirection) returns (status: Viewport.ZoomStatus)
      modifies this
      ensures (axXlim, status) == Viewport.Zoom(old(axXlim), c, z, dataMin as real, dataMax as real)
      ensures Stored() == old(Stored()) && Editing() == old(Editing())
      ensures rects == old(rects) && currentXlim == old(currentXlim) && currentYlim == old(currentYlim)
    {
      var r := Viewport.Zoom(axXlim, c, z, dataMin as real, dataMax as real);
      axXlim := r.0;
      status := r.1;
    }

    /** `on_key_zoom_in` / `on_key_zoom_out`: zoom around the middle of the window. */
    method KeyZoom(z: Viewport.ZoomDirection) returns (status: Viewport.ZoomStatus)
      modifies this
      ensures (axXlim, status) ==
        Viewport.Zoom(old(axXlim), (old(axXlim).lo + old(axXlim).hi) / 2.0, z, dataMin as real, dataMax as real)
      ensures Stored() == old(Stored()) && Editing() == old(Editing())
      ensures rects == old(rects) && currentXlim == old(currentXlim) && currentYlim == old(currentYlim)
    {
      status := Zoom((axXlim.lo + axXlim.hi) / 2.0, z);
    }

    /** `on_scroll`: nothing outside the plot (or at the falsy position); with control held the
        wheel zooms around the pointer, otherwise "down" pans left and "up" pans right. */
    method OnScroll(x: Option<int>, control: bool, up: bool)
      modifies this
      ensures x.None? || x.value == Viewport.FalsyPosition ==> axXlim == old(axXlim) && currentXlim == old(currentXlim)
      ensures x.Some? && x.value != Viewport.FalsyPosition && control ==>
        axXlim == Viewport.Zoom(old(axXlim), x.value as real, if up then Viewport.In else Viewport.Out,
                                dataMin as real, dataMax as real).0 &&
        currentXlim == old(currentXlim)
      ensures x.Some? && x.value != Viewport.FalsyPosition && !control ==>
        axXlim == Viewport.Pan(old(axXlim), if up then Viewport.Right else Viewport.Left,
                               dataMin as real, dataMax as real).0 && currentXlim == Some(axXlim)
      ensures Stored() == old(Stored()) && Editing() == old(Editing())
      ensures rects == old(rects) && currentYlim == old(currentYlim)
    {
      if x.None? || x.value == Viewport.FalsyPosition {
        return;
      }
      if control {
        var _ := Zoom(x.value as real, if up then Viewport.In else Viewport.Out);
      } else {
        var _ := Pan(if up then Viewport.Right else Viewport.Left);
      }
    }

    /** `zoom_in_on_all_labels`: fit the labels, placed on the data's first day, and keep
        the window; nothing without labels. */
    method ZoomInOnAllLabels()
      modifies this
      ensures var w := Viewport.FitLabels(LabelsOf(labels), dataDay, dataMin as real, dataMax as real);
        (w.None? ==> axXlim == old(axXlim) && currentXlim == old(currentXlim)) &&
        (w.Some? ==> axXlim == w.value && currentXlim == Some(w.value))
      ensures Stored() == old(Stored()) && Editing() == old(Editing())
      ensures rects == old(rects) && currentYlim == old(currentYlim)
    {
      if labels == [] {
        return;
      }
      var w := Viewport.FitLabels(LabelsOf(labels), dataDay, dataMin as real, dataMax as real);
      axXlim := w.value;
      currentXlim := Some(axXlim);
    }

    /** `zoom_out_to_show_all`: the data with a 10 % margin, kept. */
    method ZoomOutToShowAll()
      modifies this
      ensures axXlim == Viewport.Margined(dataMin as real, dataMax as real) && currentXlim == Some(axXlim)
      ensures Stored() == old(Stored()) && Editing() == old(Editing())
      ensures rects == old(rects) && currentYlim == old(currentYlim)
    {
      axXlim := Viewport.ShowAll(dataMin as real, dataMax as real);
      currentXlim := Some(axXlim);
    }

    // -------------------------------------------------------------------------------------
    // Pointer events

    /** The loop over the rectangles shared by hovering and clicking. */
    method HitTest(x: int, th: real, inside: bool) returns (hit: Option<nat>)
      ensures hit == FirstHit(rects, x, th, inside)
    {
      var i := 0;
      while i < |rects|
        invariant 0 <= i <= |rects|
        invariant forall j :: 0 <= j < i ==> EdgeHit(rects[j], x, th, inside).None?
      {
        if EdgeHit(rects[i], x, th, inside).Some? {
          return Some(i);
        }
        i := i + 1;
      }
      return None;
    }

    /** `on_mouse_move`. While dragging inside the plot, the selected rectangle's edge
        follows the pointer and nothing else changes; otherwise the first rectangle with an
        edge near the pointer becomes the selection, and none when no edge is near or the
        pointer is outside the plot. */
    method OnMouseMove(x: Option<int>) returns (err: Option<Error>)
      modifies this
      ensures Stored() == old(Stored())
      ensures startLabelTime == old(startLabelTime) && dragging == old(dragging) && dragEdge == old(dragEdge)
      ensures axXlim == old(axXlim) && currentXlim == old(currentXlim) && currentYlim == old(currentYlim)
      ensures x.Some? && old(dragging) && old(selected).Some? ==>
        selected == old(selected) &&
        match RectIndex(old(rects), old(selected).value)
        case None => err == Some(RectMissing) && rects == old(rects)
        case Some(k) => err == None && rects == old(rects)[k := Dragged(old(rects)[k], dragEdge, x.value)]
      ensures !(x.Some? && old(dragging) && old(selected).Some?) ==>
        err == None && rects == old(rects) &&
        var t := if x.None? then None else Target(rects, axXlim, x.value, false);
        selected == if t.Some? then Some(rects[t.value].handle) else None
    {
      if x.Some? && dragging && selected.Some? {
        var k := RectIndex(rects, selected.value);
        if k.None? {
          return Some(RectMissing);
        }
        rects := rects[k.value := Dragged(rects[k.value], dragEdge, x.value)];
        return None;
      }
      var hit: Option<nat> := None;
      if x.Some? && x.value != Viewport.FalsyPosition {
        hit := HitTest(x.value, Threshold(axXlim), false);
      }
      selected := if hit.Some? then Some(rects[hit.value].handle) else None;
      return None;
    }

    /** `validate_user_label_times` with the step time the project service computed (an
        error there propagates before anything changes): sort the labels by start, adjust
        the two positions against each label in turn, and, as its docstring promises,
        reject a result that still overlaps a label. */
    method ValidateUserLabelTimes(start: int, end: int, step: Result<int>) returns (r: Result<(Tod, Tod)>)
      requires Valid()
      modifies this
      ensures Valid()
      ensures step.Err? ==> r == Err(step.error) && labels == old(labels)
      ensures step.Ok? ==> labels == Sorting.SortBy(old(labels), StartKey)
      ensures step.Ok? ==> r == Overlap.ValidateApart(LabelsOf(labels), start, end, step.value * 1000)
      ensures nextHandle == old(nextHandle) && saves == old(saves) && Editing() == old(Editing()) && Shown() == old(Shown())
    {
      var (a, b) := if start > end then (end, start) else (start, end);
      if step.Err? {
        return Err(step.error);
      }
      var buffer := step.value * 1000;
      SortKeepsValid(labels, nextHandle);
      labels := Sorting.SortBy(labels, StartKey);
      var ls := LabelsOf(labels);
      r := AdjustTimes(ls, a % DayUs, b % DayUs, buffer);
      if r.Ok? && !(forall i | 0 <= i < |ls| :: Overlap.Apart(ls[i], r.value.0, r.value.1)) {
        r := Err(ValueError("label overlaps an existing label"));
      }
    }

    /** The second left click of a label, up to the redraw: validate, ask, create. */
    method FinishLabel(v: int, choice: Option<string>, step: Result<int>) returns (err: Option<Error>)
      requires Valid() && startLabelTime.Some?
      modifies this
      ensures Valid()
      ensures var out := SecondClick(old(labels), old(nextHandle), old(startLabelTime).value, v, choice, step);
        labels == out.slots && nextHandle == out.next && err == out.error
      ensures saves == old(saves) + (nextHandle - old(nextHandle))
      ensures startLabelTime == if err.None? then None else old(startLabelTime)
      ensures selected == old(selected) && dragging == old(dragging) && dragEdge == old(dragEdge)
      ensures Shown() == old(Shown())
    {
      ghost var out := SecondClick(labels, nextHandle, startLabelTime.value, v, choice, step);
      var times := ValidateUserLabelTimes(startLabelTime.value, v, step);
      if times.Err? {
        assert out == Outcome(labels, nextHandle, Some(times.error));
        return Some(times.error);
      }
      if choice.Some? && choice.value != "" {
        var made := NewLabel(Given(times.value.0), Given(times.value.1), choice.value);
        if made.Err? {
          return Some(made.error);
        }
        AppendFresh(labels, Slot(nextHandle, made.value), nextHandle);
        labels := labels + [Slot(nextHandle, made.value)];
        nextHandle := nextHandle + 1;
        saves := saves + 1;
      }
      startLabelTime := None;
      return None;
    }

    /** `on_click`. Outside the plot nothing happens. A left click near a rectangle's edge
        starts dragging it; with no label being drawn, a click inside a rectangle selects it.
        Otherwise the first click remembers the position and the second one finishes the
        label (`SecondClick`). The window is then kept as it was at the click. A right click
        on a label (`onLabel`) opens the context menu and keeps nothing. */
    method OnClick(button: nat, x: Option<int>, choice: Option<string>, step: Result<int>, onLabel: bool)
      returns (err: Option<Error>)
      requires Valid()
      modifies this
      ensures Valid()
      ensures x.None? ==> err == None && Stored() == old(Stored()) && Editing() == old(Editing()) && Shown() == old(Shown())
      ensures x.Some? && button != 1 ==>
        Stored() == old(Stored()) && Editing() == old(Editing()) && err == None &&
        rects == old(rects) && axXlim == old(axXlim) && currentYlim == old(currentYlim) &&
        currentXlim == if button == 3 && onLabel then old(currentXlim) else Some(old(axXlim))
      ensures x.Some? && button == 1 && ClickTarget(old(rects), old(axXlim), x.value, old(startLabelTime)).Some? ==>
        var k := ClickTarget(old(rects), old(axXlim), x.value, old(startLabelTime)).value;
        var hit := EdgeHit(old(rects)[k], x.value, Threshold(old(axXlim)), old(startLabelTime).None?).value;
        err == None && Stored() == old(Stored()) && Shown() == old(Shown()) &&
        selected == Some(old(rects)[k].handle) && startLabelTime == old(startLabelTime) &&
        (hit.Near? ==> dragging && dragEdge == hit.edge) &&
        (hit.Inside? ==> dragging == old(dragging) && dragEdge == old(dragEdge))
      ensures (x.Some? && button == 1 && ClickTarget(old(rects), old(axXlim), x.value, old(startLabelTime)).None? &&
               old(startLabelTime).None?) ==>
        err == None && Stored() == old(Stored()) && startLabelTime == Some(x.value) &&
        rects == Drawn(labels) && axXlim == old(axXlim) && currentXlim == Some(old(axXlim)) &&
        Redrawn() && selected == old(selected) && dragging == old(dragging) && dragEdge == old(dragEdge)
      ensures (x.Some? && button == 1 && ClickTarget(old(rects), old(axXlim), x.value, old(startLabelTime)).None? &&
               old(startLabelTime).Some?) ==>
        var out := SecondClick(old(labels), old(nextHandle), old(startLabelTime).value, x.value, choice, step);
        labels == out.slots && nextHandle == out.next && err == out.error &&
        (err.None? ==> startLabelTime == None && rects == Drawn(labels) &&
                       axXlim == old(axXlim) && currentXlim == Some(old(axXlim)) && Redrawn()) &&
        selected == old(selected) && dragging == old(dragging) && dragEdge == old(dragEdge) &&
        (err.Some? ==> startLabelTime == old(startLabelTime) && Shown() == old(Shown()))
    {
      if x.None? {
        return None;
      }
      var v := x.value;
      if button != 1 {
        if !(button == 3 && onLabel) {
          currentXlim := Some(axXlim);
        }
        return None;
      }
      var hit: Option<nat> := None;
      if v != Viewport.FalsyPosition {
        hit := HitTest(v, Threshold(axXlim), startLabelTime.None?);
      }
      if hit.Some? {
        var r := rects[hit.value];
        var h := EdgeHit(r, v, Threshold(axXlim), startLabelTime.None?).value;
        selected := Some(r.handle);
        if h.Near? {
          dragging := true;
          dragEdge := h.edge;
        }
        return None;
      }
      err := PlaceClick(v, choice, step);
    }

    /** A left click away from every label: the first click of a new label is remembered,
        the second one finishes it; the view stays where it was. */
    method PlaceClick(v: int, choice: Option<string>, step: Result<int>) returns (err: Option<Error>)
      requires Valid()
      modifies this
      ensures Valid()
      ensures old(startLabelTime).None? ==>
        err == None && Stored() == old(Stored()) && startLabelTime == Some(v) &&
        rects == Drawn(labels) && axXlim == old(axXlim) && currentXlim == Some(old(axXlim)) &&
        Redrawn() && selected == old(selected) && dragging == old(dragging) && dragEdge == old(dragEdge)
      ensures old(startLabelTime).Some? ==>
        var out := SecondClick(old(labels), old(nextHandle), old(startLabelTime).value, v, choice, step);
        labels == out.slots && nextHandle == out.next && err == out.error &&
        (err.None? ==> startLabelTime == None && rects == Drawn(labels) &&
                       axXlim == old(axXlim) && currentXlim == Some(old(axXlim)) && Redrawn()) &&
        selected == old(selected) && dragging == old(dragging) && dragEdge == old(dragEdge) &&
        (err.Some? ==> startLabelTime == old(startLabelTime) && Shown() == old(Shown()))
    {
      var clickXlim := axXlim;
      if startLabelTime.Some? {
        err := FinishLabel(v, choice, step);
        if err.Some? {
          return;
        }
      } else {
        startLabelTime := Some(v);
      }
      PlotData();
      axXlim := clickXlim;
      currentXlim := Some(axXlim);
      return None;
    }

    /** `on_mouse_release`: after a drag, the selected label takes the dragged edge of its
        rectangle as its new bound, dragging ends, the plot is redrawn and the labels saved. */
    method OnMouseRelease() returns (err: Option<Error>)
      requires Valid()
      modifies this
      ensures Valid()
      ensures !(old(dragging) && old(selected).Some?) ==>
        err == None && Stored() == old(Stored()) && Editing() == old(Editing()) && Shown() == old(Shown())
      ensures old(dragging) && old(selected).Some? && RectIndex(old(rects), old(selected).value).None? ==>
        err == Some(RectMissing) && Stored() == old(Stored()) && Editing() == old(Editing()) && Shown() == old(Shown())
      ensures old(dragging) && old(selected).Some? && RectIndex(old(rects), old(selected).value).Some? ==>
        var r := old(rects)[RectIndex(old(rects), old(selected).value).value];
        err == None && labels == Released(old(labels), old(selected).value, old(dragEdge), r) &&
        !dragging && selected == old(selected) && startLabelTime == old(startLabelTime) &&
        dragEdge == old(dragEdge) && nextHandle == old(nextHandle) && saves == old(saves) + 1 &&
        currentXlim == old(currentXlim) && Redrawn()
    {
      if !(dragging && selected.Some?) {
        return None;
      }
      var k := RectIndex(rects, selected.value);
      if k.None? {
        return Some(RectMissing);
      }
      labels := Released(labels, selected.value, dragEdge, rects[k.value]);
      dragging := false;
      PlotData();
      saves := saves + 1;
      return None;
    }

    /** `delete_label`: remove the label's object from the list, save and redraw; a label that
        is not in the list raises `ValueError`. */
    method DeleteLabel(h: nat) returns (err: Option<Error>)
      requires Valid()
      modifies this
      ensures Valid()
      ensures IndexOfHandle(old(labels), h).None? ==>
        err == Some(NotInList) && Stored() == old(Stored()) && Editing() == old(Editing()) && Shown() == old(Shown())
      ensures IndexOfHandle(old(labels), h).Some? ==>
        var i := IndexOfHandle(old(labels), h).value;
        err == None && labels == old(labels)[..i] + old(labels)[i + 1..] &&
        h !in Handles(labels) && Handles(labels) == Handles(old(labels)) - {h} &&
        nextHandle == old(nextHandle) && saves == old(saves) + 1 && Editing() == old(Editing()) &&
        currentXlim == old(currentXlim) && Redrawn()
    {
      var i := IndexOfHandle(labels, h);
      if i.None? {
        return Some(NotInList);
      }
      RemoveFresh(labels, i.value, nextHandle);
      labels := labels[..i.value] + labels[i.value + 1..];
      saves := saves + 1;
      PlotData();
      return None;
    }

    /** `on_delete_key`: delete the selected label, if there is one; the selection stays. */
    method OnDeleteKey() returns (err: Option<Error>)
      requires Valid()
      modifies this
      ensures Valid()
      ensures old(selected).None? ==>
        err == None && Stored() == old(Stored()) && Editing() == old(Editing()) && Shown() == old(Shown())
      ensures old(selected).Some? && IndexOfHandle(old(labels), old(selected).value).Some? ==>
        var i := IndexOfHandle(old(labels), old(selected).value).value;
        err == None && labels == old(labels)[..i] + old(labels)[i + 1..] &&
        old(selected).value !in Handles(labels) && Handles(labels) == Handles(old(labels)) - {old(selected).value} &&
        nextHandle == old(nextHandle) && saves == old(saves) + 1 && Editing() == old(Editing()) &&
        currentXlim == old(currentXlim) && Redrawn()
      ensures old(selected).Some? && IndexOfHandle(old(labels), old(selected).value).None? ==>
        err == Some(NotInList) && Stored() == old(Stored()) && Editing() == old(Editing()) && Shown() == old(Shown())
    {
      err := None;
      if selected.Some? {
        err := DeleteLabel(selected.value);
      }
    }

    /** `change_label_behavior`: a chosen behaviour replaces only the behaviour of the label's
        object, then the labels are saved and redrawn; no choice changes nothing. */
    method ChangeLabelBehavior(h: nat, choice: Option<string>)
      requires Valid()
      modifies this
      ensures Valid()
      ensures choice.None? || choice.value == "" ==>
        Stored() == old(Stored()) && Editing() == old(Editing()) && Shown() == old(Shown())
      ensures choice.Some? && choice.value != "" ==>
        labels == Relabelled(old(labels), h, choice.value) && nextHandle == old(nextHandle) &&
        saves == old(saves) + 1 && Editing() == old(Editing()) &&
        currentXlim == old(currentXlim) && Redrawn()
    {
      if choice.Some? && choice.value != "" {
        labels := Relabelled(labels, h, choice.value);
        saves := saves + 1;
        PlotData();
      }
    }

    /** `get_data_path`. */
    function GetDataPath(): (r: Option<string>)
      ensures r == DataName(dataPath)
    {
      DataName(dataPath)
    }
  }
}
