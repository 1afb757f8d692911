/** `AccelDataProcessor.find_nearest_behaviors` (`data_processing/accel_data_processor.py`):
    the label boundaries around a moment, for the info pane. Times are microseconds on one
    common scale; the data's first and last timestamps are given. */
module Nearest {
  import opened Wrappers
  import Sorting

  /** The two times of a label that the lookup reads. */
  datatype Span = Span(start: int, end: int)

  function StartOf(s: Span): int { s.start }

  predicate Contains(s: Span, t: int) { s.start <= t <= s.end }

  /** `v` is the start or the end of one of the labels. */
  predicate BoundOf(ls: seq<Span>, v: int)
  {
    exists i :: 0 <= i < |ls| && (v == ls[i].start || v == ls[i].end)
  }

  /** The loop over the labels in start order, from the previous boundary found so far:
      each boundary found is one of a label's own, and with no labels left nothing changes. */
  function Scan(ls: seq<Span>, t: int, prev: Option<int>): (r: (Option<int>, Option<int>))
    ensures ls == [] ==> r == (prev, None)
    ensures r.0 != prev ==> r.0.Some? && BoundOf(ls, r.0.value)
    ensures r.1.Some? ==> BoundOf(ls, r.1.value)
  {
    if ls == [] then (prev, None)
    else if Contains(ls[0], t) then (Some(ls[0].start), Some(ls[0].end))
    else if ls[0].end <= t then
      var r := Scan(ls[1..], t, Some(ls[0].end));
      BoundOfTail(ls);
      r
    else (prev, Some(ls[0].start))
  }

  /** A boundary of the labels after the first is a boundary of all of them. */
  lemma BoundOfTail(ls: seq<Span>)
    requires ls != []
    ensures forall v :: BoundOf(ls[1..], v) ==> BoundOf(ls, v)
  {
    forall v | BoundOf(ls[1..], v)
      ensures BoundOf(ls, v)
    {
      var i :| 0 <= i < |ls[1..]| && (v == ls[1..][i].start || v == ls[1..][i].end);
      assert ls[i + 1] == ls[1..][i];
    }
  }

  /** The result, with the data's first and last timestamps where no label bounds `t`:
      each side is a label's start or end, or else that side's data bound. */
  function FindNearest(labels: seq<Span>, t: int, dataMin: int, dataMax: int): (r: (int, int))
    ensures r.0 == dataMin || BoundOf(labels, r.0)
    ensures r.1 == dataMax || BoundOf(labels, r.1)
  {
    var sorted := Sorting.SortBy(labels, StartOf);
    var (p, n) := Scan(sorted, t, None);
    SortedBounds(labels);
    (if p.Some? then p.value else dataMin, if n.Some? then n.value else dataMax)
  }

  /** Sorting keeps the set of boundaries. */
  lemma SortedBounds(labels: seq<Span>)
    ensures forall v :: BoundOf(Sorting.SortBy(labels, StartOf), v) ==> BoundOf(labels, v)
  {
    var s := Sorting.SortBy(labels, StartOf);
    Sorting.SortByCorrect(labels, StartOf);
    forall v | BoundOf(s, v)
      ensures BoundOf(labels, v)
    {
      var i :| 0 <= i < |s| && (v == s[i].start || v == s[i].end);
      assert s[i] in multiset(labels);
      var j :| 0 <= j < |labels| && labels[j] == s[i];
    }
  }

  /** The source's loop over the sorted copy; the caller's list is not touched. */
  method FindNearestBehaviors(labels: seq<Span>, t: int, dataMin: int, dataMax: int)
    returns (prev: int, next: int)
    ensures (prev, next) == FindNearest(labels, t, dataMin, dataMax)
  {
    var sorted := Sorting.SortBy(labels, StartOf);
    var prevLabel: Option<int> := None;
    var nextLabel: Option<int> := None;
    var i := 0;
    while i < |sorted|
      invariant 0 <= i <= |sorted| && nextLabel.None?
      invariant Scan(sorted, t, None) == Scan(sorted[i..], t, prevLabel)
    {
      var l := sorted[i];
      assert sorted[i..][1..] == sorted[i + 1..];
      if l.start <= t <= l.end {
        prevLabel, nextLabel := Some(l.start), Some(l.end);
        break;
      } else if l.end <= t {
        prevLabel := Some(l.end);
      } else if l.start > t && nextLabel.None? {
        nextLabel := Some(l.start);
        break;
      }
      i := i + 1;
    }
    prev := if prevLabel.Some? then prevLabel.value else dataMin;
    next := if nextLabel.Some? then nextLabel.value else dataMax;
  }

  // ---------------------------------------------------------------------------------------
  // Properties of the scan over labels in start order

  predicate WellFormed(ls: seq<Span>)
  {
    forall i :: 0 <= i < |ls| ==> ls[i].start <= ls[i].end
  }

  /** The first label (in start order) containing `t` gives both boundaries. */
  lemma {:induction false} ScanInside(ls: seq<Span>, t: int, prev: Option<int>, k: nat)
    requires Sorting.SortedBy(ls, StartOf)
    requires k < |ls| && Contains(ls[k], t)
    requires forall j :: 0 <= j < k ==> !Contains(ls[j], t)
    ensures Scan(ls, t, prev) == (Some(ls[k].start), Some(ls[k].end))
  {
    if k > 0 {
      assert StartOf(ls[0]) <= StartOf(ls[k]);
      assert Sorting.SortedBy(ls[1..], StartOf);
      ScanInside(ls[1..], t, Some(ls[0].end), k - 1);
    }
  }

  /** Before every label, the scan finds no previous boundary and the first start is next. */
  lemma ScanBefore(ls: seq<Span>, t: int, prev: Option<int>)
    requires WellFormed(ls) && ls != []
    requires forall i :: 0 <= i < |ls| ==> t < ls[i].start
    ensures Scan(ls, t, prev) == (prev, Some(ls[0].start))
  {
  }

  /** After every label, the previous boundary is the end of the last one in start order
      and there is no next one. */
  lemma {:induction false} ScanAfter(ls: seq<Span>, t: int, prev: Option<int>)
    requires ls != []
    requires forall i :: 0 <= i < |ls| ==> ls[i].end < t
    ensures Scan(ls, t, prev) == (Some(ls[|ls| - 1].end), None)
  {
    if |ls| > 1 {
      ScanAfter(ls[1..], t, Some(ls[0].end));
    }
  }

  /** In a gap: the first label starting after `t` is next, and the label just before it in
      start order supplies the previous boundary. */
  lemma {:induction false} ScanGap(ls: seq<Span>, t: int, prev: Option<int>, k: nat)
    requires Sorting.SortedBy(ls, StartOf) && WellFormed(ls)
    requires 0 < k < |ls| && t < ls[k].start
    requires forall j :: 0 <= j < k ==> ls[j].start <= t && !Contains(ls[j], t)
    ensures Scan(ls, t, prev) == (Some(ls[k - 1].end), Some(ls[k].start))
  {
    if k == 1 {
      assert ls[1..][0] == ls[1];
      ScanBefore([ls[1]] + ls[2..], t, Some(ls[0].end));
      assert ls[1..] == [ls[1]] + ls[2..];
      assert Scan(ls[1..], t, Some(ls[0].end)) == (Some(ls[0].end), Some(ls[1].start)) by {
        assert !Contains(ls[1], t) && !(ls[1].end <= t);
      }
    } else {
      assert Sorting.SortedBy(ls[1..], StartOf);
      ScanGap(ls[1..], t, Some(ls[0].end), k - 1);
    }
  }

  /** Whatever the order, the boundaries bracket `t`: a previous one is at most `t`, a next
      one at least `t`. */
  lemma {:induction false} ScanBrackets(ls: seq<Span>, t: int, prev: Option<int>)
    requires WellFormed(ls)
    requires prev.Some? ==> prev.value <= t
    ensures var r := Scan(ls, t, prev);
      (r.0.Some? ==> r.0.value <= t) && (r.1.Some? ==> t <= r.1.value)
  {
    if ls != [] && !Contains(ls[0], t) && ls[0].end <= t {
      ScanBrackets(ls[1..], t, Some(ls[0].end));
    }
  }

  // ---------------------------------------------------------------------------------------
  // The same properties of the whole lookup

  lemma SortedWellFormed(labels: seq<Span>)
    requires WellFormed(labels)
    ensures var s := Sorting.SortBy(labels, StartOf);
      WellFormed(s) && Sorting.SortedBy(s, StartOf) && multiset(s) == multiset(labels)
  {
    var s := Sorting.SortBy(labels, StartOf);
    Sorting.SortByCorrect(labels, StartOf);
    forall i | 0 <= i < |s|
      ensures s[i].start <= s[i].end
    {
      assert s[i] in multiset(labels);
    }
  }

  /** For `t` within the data, `prev <= t <= next`. */
  lemma NearestBrackets(labels: seq<Span>, t: int, dataMin: int, dataMax: int)
    requires WellFormed(labels) && dataMin <= t <= dataMax
    ensures FindNearest(labels, t, dataMin, dataMax).0 <= t <= FindNearest(labels, t, dataMin, dataMax).1
  {
    SortedWellFormed(labels);
    ScanBrackets(Sorting.SortBy(labels, StartOf), t, None);
  }

  /** With no label at all, the data's own bounds come back. */
  lemma NearestNoLabels(t: int, dataMin: int, dataMax: int)
    ensures FindNearest([], t, dataMin, dataMax) == (dataMin, dataMax)
  {
  }

  /** Before every label: the data's first timestamp and the earliest start. */
  lemma NearestBefore(labels: seq<Span>, t: int, dataMin: int, dataMax: int)
    requires WellFormed(labels) && labels != []
    requires forall i :: 0 <= i < |labels| ==> t < labels[i].start
    ensures FindNearest(labels, t, dataMin, dataMax).0 == dataMin
    ensures var n := FindNearest(labels, t, dataMin, dataMax).1;
      (exists i :: 0 <= i < |labels| && n == labels[i].start) &&
      forall i :: 0 <= i < |labels| ==> n <= labels[i].start
  {
    var s := Sorting.SortBy(labels, StartOf);
    SortedWellFormed(labels);
    forall i | 0 <= i < |s|
      ensures t < s[i].start
    {
      assert s[i] in multiset(labels);
    }
    ScanBefore(s, t, None);
    assert s[0] in multiset(labels);
    forall i | 0 <= i < |labels|
      ensures s[0].start <= labels[i].start
    {
      assert labels[i] in multiset(s);
    }
  }

  /** After every label: the end of the last label in start order, and the data's last
      timestamp. */
  lemma NearestAfter(labels: seq<Span>, t: int, dataMin: int, dataMax: int)
    requires labels != []
    requires forall i :: 0 <= i < |labels| ==> labels[i].end < t
    ensures var s := Sorting.SortBy(labels, StartOf);
      FindNearest(labels, t, dataMin, dataMax) == (s[|s| - 1].end, dataMax)
  {
    var s := Sorting.SortBy(labels, StartOf);
    Sorting.SortByCorrect(labels, StartOf);
    forall i | 0 <= i < |s|
      ensures s[i].end < t
    {
      assert s[i] in multiset(labels);
    }
    ScanAfter(s, t, None);
  }

  /** Inside a label: the first label in start order that contains `t` gives its own start
      and end. */
  lemma NearestInside(labels: seq<Span>, t: int, dataMin: int, dataMax: int, k: nat)
    requires var s := Sorting.SortBy(labels, StartOf);
      k < |s| && Contains(s[k], t) && forall j :: 0 <= j < k ==> !Contains(s[j], t)
    ensures var s := Sorting.SortBy(labels, StartOf);
      FindNearest(labels, t, dataMin, dataMax) == (s[k].start, s[k].end)
  {
    Sorting.SortByCorrect(labels, StartOf);
    ScanInside(Sorting.SortBy(labels, StartOf), t, None, k);
  }

  /** In a gap between labels: the end of the label just before the first one starting
      after `t`, and that one's start. */
  lemma NearestGap(labels: seq<Span>, t: int, dataMin: int, dataMax: int, k: nat)
    requires WellFormed(labels)
    requires var s := Sorting.SortBy(labels, StartOf);
      0 < k < |s| && t < s[k].start && forall j :: 0 <= j < k ==> s[j].start <= t && !Contains(s[j], t)
    ensures var s := Sorting.SortBy(labels, StartOf);
      FindNearest(labels, t, dataMin, dataMax) == (s[k - 1].end, s[k].start)
  {
    SortedWellFormed(labels);
    ScanGap(Sorting.SortBy(labels, StartOf), t, None, k);
  }

  /** The worked examples: labels 08:02-08:04 and 08:05-08:07 over data from 08:00 to 08:09
      (in minutes). */
  lemma NearestExamples()
    ensures FindNearest([Span(2, 4), Span(5, 7)], 3, 0, 9) == (2, 4)
    ensures FindNearest([Span(2, 4), Span(5, 7)], 0, 0, 9) == (0, 2)
    ensures FindNearest([Span(2, 4), Span(5, 7)], 8, 0, 9) == (7, 9)
    ensures FindNearest([Span(2, 4), Span(5, 7)], 6, 0, 9) == (5, 7)
  {
    var ls := [Span(2, 4), Span(5, 7)];
    Sorting.SortBySorted(ls, StartOf);
    assert ls[1..] == [Span(5, 7)];
  }
}
