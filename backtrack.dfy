/** The backtrack scan of `data_processing/backtrack_analysis.py`: walking a collar file's
    timestamps in row order, keeping the latest one seen, and recording rows that go back
    in time; then the incomplete-day test and the per-file summary. Timestamps are
    microseconds since 1900-01-01 00:00, the date the clock column is parsed onto. */
module Backtrack {
  import opened Wrappers
  import opened Labels

  /** The running maximum: `pd.Timestamp.min` before any row, then a row's timestamp.
      Every row is later than `pd.Timestamp.min`. */
  datatype Bound = TimestampMin | At(t: nat)

  /** A recorded pair: the row's timestamp and the maximum it was compared with. */
  datatype Record = Record(at: nat, max: Bound)

  /** The time of day of `pd.Timestamp.min` (1677-09-21 00:12:43.145224193) as a
      `datetime.time`: 00:12:43.145224. */
  const MinTod: Tod := 12 * MinuteUs + 43 * SecondUs + 145224

  function TodOf(t: nat): Tod { t % DayUs }

  function BoundTod(b: Bound): Tod
  {
    match b
    case TimestampMin => MinTod
    case At(t) => TodOf(t)
  }

  /** The midnight test: the row's clock is before the maximum's clock and in hour 0. */
  predicate Rollover(b: Bound, t: nat)
  {
    TodOf(t) < BoundTod(b) && TodOf(t) < HourUs
  }

  /** The backtrack test: the row is earlier than the maximum. */
  predicate Backward(b: Bound, t: nat)
  {
    b.At? && t < b.t
  }

  /** What one row appends: once for each test it meets, so up to twice. */
  function StepRecords(b: Bound, t: nat): (r: seq<Record>)
    ensures |r| == (if Rollover(b, t) then 1 else 0) + (if Backward(b, t) then 1 else 0)
    ensures forall i :: 0 <= i < |r| ==> r[i] == Record(t, b)
  {
    (if Rollover(b, t) then [Record(t, b)] else []) + (if Backward(b, t) then [Record(t, b)] else [])
  }

  /** The largest timestamp of a non-empty run of rows. */
  function SeqMax(ts: seq<nat>): (m: nat)
    requires ts != []
    ensures forall i :: 0 <= i < |ts| ==> ts[i] <= m
    ensures exists i :: 0 <= i < |ts| && m == ts[i]
  {
    if |ts| == 1 then ts[0]
    else
      var init := SeqMax(ts[..|ts| - 1]);
      assert forall i :: 0 <= i < |ts| - 1 ==> ts[i] == ts[..|ts| - 1][i];
      if init >= ts[|ts| - 1] then init else ts[|ts| - 1]
  }

  /** The maximum when row `i` is reached: the previous maximum, replaced by the previous row
      unless that row was earlier than it. */
  function MaxBefore(ts: seq<nat>, i: nat): (r: Bound)
    requires i <= |ts|
    ensures r == TimestampMin <==> i == 0
    ensures r.At? ==> r.t in ts[..i]
  {
    if i == 0 then TimestampMin
    else
      var m := MaxBefore(ts, i - 1);
      if Backward(m, ts[i - 1]) then m else At(ts[i - 1])
  }

  /** The maximum kept row by row is the largest earlier timestamp. */
  lemma {:induction false} MaxBeforeIsLargest(ts: seq<nat>, i: nat)
    requires 0 < i <= |ts|
    ensures MaxBefore(ts, i) == At(SeqMax(ts[..i]))
  {
    if i == 1 {
      assert ts[..1] == [ts[0]];
    } else {
      MaxBeforeIsLargest(ts, i - 1);
      assert ts[..i][..i - 1] == ts[..i - 1];
    }
  }

  /** The maximum at row `i` depends only on the rows before it. */
  lemma {:induction false} MaxBeforePrefix(ts: seq<nat>, k: nat, i: nat)
    requires i <= k <= |ts|
    ensures MaxBefore(ts[..k], i) == MaxBefore(ts, i)
  {
    if i > 0 {
      MaxBeforePrefix(ts, k, i - 1);
      assert ts[..k][i - 1] == ts[i - 1];
    }
  }

  /** Everything the scan records: row by row, what each row appends against the maximum of
      the rows before it. */
  function Records(ts: seq<nat>): (r: seq<Record>)
    ensures |r| <= 2 * |ts|
    ensures forall k :: 0 <= k < |r| ==> r[k].at in ts
    decreases |ts|
  {
    if ts == [] then []
    else Records(ts[..|ts| - 1]) + StepRecords(MaxBefore(ts, |ts| - 1), ts[|ts| - 1])
  }

  /** The loop of `process_csv` (lines 42-57). */
  method Scan(ts: seq<nat>) returns (backtracks: seq<Record>, maxTime: Bound)
    ensures backtracks == Records(ts)
    ensures maxTime == MaxBefore(ts, |ts|)
  {
    maxTime := TimestampMin;
    backtracks := [];
    var i := 0;
    while i < |ts|
      invariant 0 <= i <= |ts|
      invariant backtracks == Records(ts[..i])
      invariant maxTime == MaxBefore(ts, i)
    {
      var t := ts[i];
      RowStep(ts, i);
      ghost var before := backtracks;
      if Rollover(maxTime, t) {
        backtracks := backtracks + [Record(t, maxTime)];
      }
      if Backward(maxTime, t) {
        backtracks := backtracks + [Record(t, maxTime)];
      } else {
        maxTime := At(t);
      }
      assert backtracks == before + StepRecords(MaxBefore(ts, i), t);
      i := i + 1;
    }
    assert ts[..|ts|] == ts;
  }

  /** One more row: its records are appended, and the maximum stays unless the row is no
      earlier than it. */
  lemma RowStep(ts: seq<nat>, i: nat)
    requires i < |ts|
    ensures Records(ts[..i + 1]) == Records(ts[..i]) + StepRecords(MaxBefore(ts, i), ts[i])
    ensures MaxBefore(ts, i + 1) == if Backward(MaxBefore(ts, i), ts[i]) then MaxBefore(ts, i) else At(ts[i])
  {
    assert ts[..i + 1][..i] == ts[..i];
    MaxBeforePrefix(ts, i + 1, i);
  }

  // ---------------------------------------------------------------------------------------
  // Properties of the scan

  /** Row `i` is a backtrack exactly when some earlier row is later than it. */
  lemma BackwardIffEarlierLater(ts: seq<nat>, i: nat)
    requires i < |ts|
    ensures Backward(MaxBefore(ts, i), ts[i]) <==> exists j :: 0 <= j < i && ts[i] < ts[j]
  {
    if i > 0 {
      var m := SeqMax(ts[..i]);
      MaxBeforeIsLargest(ts, i);
      if Backward(MaxBefore(ts, i), ts[i]) {
        var j :| 0 <= j < i && m == ts[..i][j];
        assert ts[i] < ts[j];
      }
      if exists j :: 0 <= j < i && ts[i] < ts[j] {
        var j :| 0 <= j < i && ts[i] < ts[j];
        assert ts[..i][j] == ts[j];
      }
    }
  }

  /** The maximum never decreases from one row to a later one. */
  lemma MaxNeverDecreases(ts: seq<nat>, i: nat, k: nat)
    requires 0 < i <= k <= |ts|
    ensures MaxBefore(ts, i).t <= MaxBefore(ts, k).t
  {
    MaxBeforeIsLargest(ts, i);
    MaxBeforeIsLargest(ts, k);
    var j :| 0 <= j < i && SeqMax(ts[..i]) == ts[..i][j];
    assert ts[..k][j] == ts[j];
  }

  predicate Nondecreasing(ts: seq<nat>)
  {
    forall i, j :: 0 <= i < j < |ts| ==> ts[i] <= ts[j]
  }

  /** A file in time order on one day whose first row is no earlier than 00:12:43.145224
      records nothing. */
  lemma {:induction false} OrderedDayClean(ts: seq<nat>)
    requires Nondecreasing(ts)
    requires forall i :: 0 <= i < |ts| ==> ts[i] < DayUs
    requires ts != [] ==> ts[0] >= MinTod
    ensures Records(ts) == []
    decreases |ts|
  {
    if ts != [] {
      var init := ts[..|ts| - 1];
      assert Nondecreasing(init);
      OrderedDayClean(init);
      OrderedRowClean(ts, |ts| - 1);
    }
  }

  /** In such a file no row meets either test. */
  lemma OrderedRowClean(ts: seq<nat>, n: nat)
    requires n < |ts| && Nondecreasing(ts)
    requires forall i :: 0 <= i < |ts| ==> ts[i] < DayUs
    requires ts[0] >= MinTod
    ensures StepRecords(MaxBefore(ts, n), ts[n]) == []
  {
    if n > 0 {
      MaxBeforeIsLargest(ts, n);
      var j :| 0 <= j < n && SeqMax(ts[..n]) == ts[..n][j];
      assert ts[..n][j] == ts[j];
      assert ts[j] <= ts[n];
      NoStepAfter(ts[j], ts[n]);
    } else {
      NoStepFirst(ts[0]);
    }
  }

  /** A row no earlier than the maximum, on the same day, meets neither test. */
  lemma NoStepAfter(m: nat, t: nat)
    requires m <= t < DayUs
    ensures StepRecords(At(m), t) == []
  {
    assert TodOf(t) == t && TodOf(m) == m;
  }

  /** A first row no earlier than 00:12:43.145224 meets neither test. */
  lemma NoStepFirst(t: nat)
    requires MinTod <= t < DayUs
    ensures StepRecords(TimestampMin, t) == []
  {
    assert TodOf(t) == t;
  }

  /** A first row before 00:12:43.145224 is recorded against `pd.Timestamp.min`, even in a
      file in time order. */
  lemma EarlyFirstRow(t: nat)
    requires t < MinTod
    ensures Records([t]) == [Record(t, TimestampMin)]
  {
    assert [t][..0] == [];
  }

  /** A row at 00:30 after one at 23:59 the same day is recorded twice: once by the midnight
      test and once as a backtrack. */
  lemma MidnightRecordedTwice()
    ensures var late := 23 * HourUs + 59 * MinuteUs;
      Records([late, 30 * MinuteUs]) == [Record(30 * MinuteUs, At(late)), Record(30 * MinuteUs, At(late))]
  {
    var late := 23 * HourUs + 59 * MinuteUs;
    var ts := [late, 30 * MinuteUs];
    assert ts[..1] == [late];
    assert [late][..0] == [];
    assert Records([late]) == [];
    assert MaxBefore(ts, 1) == At(late);
    assert Rollover(At(late), 30 * MinuteUs) && Backward(At(late), 30 * MinuteUs);
  }

  // ---------------------------------------------------------------------------------------
  // Per file and over all files

  /** What `process_csv` returns for a file that parses: its records and the clocks of its
      first and last rows. */
  datatype Summary = Summary(backtracks: seq<Record>, startTod: Tod, endTod: Tod)

  /** A file with no rows fails on its first row and is counted as an error file. */
  function ProcessRows(ts: seq<nat>): (r: Option<Summary>)
    ensures r.Some? <==> ts != []
    ensures r.Some? ==> r.value.backtracks == Records(ts)
    ensures r.Some? ==> r.value.startTod == TodOf(ts[0]) && r.value.endTod == TodOf(ts[|ts| - 1])
  {
    if ts == [] then None else Some(Summary(Records(ts), TodOf(ts[0]), TodOf(ts[|ts| - 1])))
  }

  /** A day counts as incomplete when it starts after 00:30 or ends before 23:30. */
  predicate Incomplete(s: Summary)
  {
    s.startTod > 30 * MinuteUs || s.endTod < 23 * HourUs + 30 * MinuteUs
  }

  /** A file that starts at midnight and ends at 23:59:59 is a complete day. */
  lemma FullDayComplete(ts: seq<nat>)
    requires |ts| >= 2 && ts[0] == 0 && ts[|ts| - 1] == DayUs - SecondUs
    ensures !Incomplete(ProcessRows(ts).value)
  {
  }

  /** The files that parsed and have backtracks, in the order they were processed. */
  function Flagged(results: seq<Option<Summary>>): (fs: seq<Summary>)
    ensures |fs| <= |results|
    ensures forall i :: 0 <= i < |fs| ==> fs[i].backtracks != []
  {
    if results == [] then []
    else if results[0].Some? && results[0].value.backtracks != [] then [results[0].value] + Flagged(results[1..])
    else Flagged(results[1..])
  }

  /** The number of backtracks in the given files: at least one per file when none of them
      is empty. */
  function TotalLength(fs: seq<Summary>): (n: nat)
    ensures (forall i :: 0 <= i < |fs| ==> fs[i].backtracks != []) ==> n >= |fs|
  {
    if fs == [] then 0 else |fs[0].backtracks| + TotalLength(fs[1..])
  }

  /** The number of files with backtracks and the number of backtracks in them: what the
      loop over the results accumulates in `backtrack_file_count` and `total_backtracks`. */
  function Tally(results: seq<Option<Summary>>): (r: (nat, nat))
    ensures r.0 == |Flagged(results)| && r.1 == TotalLength(Flagged(results))
    ensures r.0 <= r.1
    ensures r.0 > 0 <==> exists i :: 0 <= i < |results| && results[i].Some? && results[i].value.backtracks != []
  {
    if results == [] then (0, 0)
    else
      var rest := Tally(results[1..]);
      assert forall i :: 1 <= i < |results| ==> results[i] == results[1..][i - 1];
      if results[0].Some? && results[0].value.backtracks != [] then
        (rest.0 + 1, rest.1 + |results[0].value.backtracks|)
      else rest
  }

  /** The report's average line: written only when some file has backtracks, and then at
      least one. */
  function AverageBacktracks(results: seq<Option<Summary>>): (r: Option<real>)
    ensures r.Some? <==> exists i :: 0 <= i < |results| && results[i].Some? && results[i].value.backtracks != []
    ensures r.Some? ==> |Flagged(results)| > 0 && r.value == TotalLength(Flagged(results)) as real / |Flagged(results)| as real
    ensures r.Some? ==> r.value >= 1.0
  {
    var (count, total) := Tally(results);
    if count > 0 then RatioAtLeastOne(total, count); Some(total as real / count as real) else None
  }

  /** At least one backtrack per counted file makes an average of at least one. */
  lemma RatioAtLeastOne(total: nat, count: nat)
    requires 0 < count <= total
    ensures total as real / count as real >= 1.0
  {
    var t, c := total as real, count as real;
    var q := t / c;
    assert q * c == t;
    assert (q - 1.0) * c == t - c >= 0.0;
    if q < 1.0 {
      assert (1.0 - q) * c > 0.0;
    }
  }
}
