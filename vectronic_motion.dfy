/** The Vectronic Motion input type (`input_types/vectronic_motion.py`): which columns a
    collar CSV must have, how the timestamp text is assembled from its two time columns,
    and the axes it plots. */
module VectronicMotion {
  import opened Wrappers
  import opened Text
  import AxesConfigModel

  const TimestampColumn := "Timestamp"
  const UtcColumn := "UTC DateTime"
  const MillisColumn := "Milliseconds"

  datatype VectronicMotionInput = VectronicMotionInput(frequency: int)

  /** `column_info`, in its insertion order: the key of every entry is its input name. */
  const ColumnInfo: seq<AxesConfigModel.Axis> := [
    AxesConfigModel.Display("Timestamp", "orange", 1.0, "Timestamp"),
    AxesConfigModel.Display("X-axis", "red", 0.6, "Acc X [g]"),
    AxesConfigModel.Display("Y-axis", "black", 0.5, "Acc Y [g]"),
    AxesConfigModel.Display("Z-axis", "blue", 0.7, "Acc Z [g]")
  ]

  /** `[info.input_name for info in self.column_info.values()]`. */
  const ExpectedColumns: seq<string> := ["Timestamp", "Acc X [g]", "Acc Y [g]", "Acc Z [g]"]

  /** `get_frequency()`. */
  function Frequency(v: VectronicMotionInput): (f: int)
    ensures v == VectronicMotionInput(f)
  {
    v.frequency
  }

  /** `[c for c in names if c not in columns]`: the absent names, in the order of `names`. */
  function Missing(names: seq<string>, columns: seq<string>): (r: seq<string>)
    ensures |r| <= |names|
    ensures forall x :: x in r <==> x in names && x !in columns
    ensures r == [] <==> forall i :: 0 <= i < |names| ==> names[i] in columns
  {
    if names == [] then []
    else (if names[0] in columns then [] else [names[0]]) + Missing(names[1..], columns)
  }

  /** Python's `str()` of a list of strings. */
  function ListText(names: seq<string>): string
  {
    "[" + JoinWith(seq(|names|, i requires 0 <= i < |names| => "'" + names[i] + "'"), ", ") + "]"
  }

  /** `validate_format(df)`: True when every expected column is present, else a ValueError
      listing the missing ones in `column_info` order. */
  function ValidateFormat(columns: seq<string>): (r: Result<bool>)
    ensures r.Ok? <==> forall i :: 0 <= i < |ExpectedColumns| ==> ExpectedColumns[i] in columns
    ensures r.Ok? ==> r.value
    ensures r.Err? ==> r.error == ValueError("Missing expected columns: " + ListText(Missing(ExpectedColumns, columns)))
  {
    var missing := Missing(ExpectedColumns, columns);
    if missing != [] then Err(ValueError("Missing expected columns: " + ListText(missing))) else Ok(true)
  }

  // ---------------------------------------------------------------------------------------
  // load_data on the frame `read_csv` produced

  /** A frame as `read_csv` leaves it: column names in order and the text of each column's
      cells (`astype(str)`). Converting the timestamps with `to_datetime` is not modelled;
      the Timestamp column holds the text handed to it. */
  datatype Frame = Frame(columns: seq<string>, cells: map<string, seq<string>>)

  /** Every column has cells, all of the same length. */
  predicate WellFormed(f: Frame)
  {
    (forall c :: c in f.columns ==> c in f.cells) &&
    (forall c, d :: c in f.columns && d in f.columns ==> |f.cells[c]| == |f.cells[d]|)
  }

  /** `utc + '.' + ms.zfill(3)` for one row. */
  function TimestampText(utc: string, ms: string): (r: string)
    ensures |r| >= |utc| + 4
  {
    utc + "." + ZFill(ms, 3)
  }

  /** `df['Timestamp'] = ...`: an existing column is overwritten in place, a new one is
      appended at the end. */
  function SetColumn(f: Frame, name: string, values: seq<string>): (r: Frame)
    ensures name in r.columns && name in r.cells && r.cells[name] == values
    ensures forall c :: c in r.columns <==> c in f.columns || c == name
    ensures forall c :: c in f.cells && c != name ==> c in r.cells && r.cells[c] == f.cells[c]
  {
    Frame(if name in f.columns then f.columns else f.columns + [name], f.cells[name := values])
  }

  /** The columns left after `drop(columns=names)`, in order. */
  function Without(columns: seq<string>, names: set<string>): (r: seq<string>)
    ensures forall c :: c in r <==> c in columns && c !in names
  {
    if columns == [] then []
    else (if columns[0] in names then [] else [columns[0]]) + Without(columns[1..], names)
  }

  /** `df.drop(columns=names, inplace=True)`. */
  function Drop(f: Frame, names: set<string>): (r: Frame)
    ensures forall c :: c in r.columns <==> c in f.columns && c !in names
  {
    Frame(Without(f.columns, names), f.cells - names)
  }

  /** The `KeyError` raised when a time column is missing, as `load_data` re-raises it. */
  function MissingTimeColumns(columns: seq<string>): Error
  {
    ValueError("Missing expected columns: '" + "Missing required columns: "
               + JoinWith(Missing([UtcColumn, MillisColumn], columns), ", ") + "'")
  }

  /** The frame after the Timestamp column is set and the two time columns are dropped. */
  function Loaded(f: Frame): (g: Frame)
    requires WellFormed(f) && UtcColumn in f.columns && MillisColumn in f.columns
    ensures forall c :: c in g.columns <==> (c in f.columns || c == TimestampColumn) && c != UtcColumn && c != MillisColumn
  {
    var utc := f.cells[UtcColumn];
    var ms := f.cells[MillisColumn];
    var stamps := seq(|utc|, i requires 0 <= i < |utc| => TimestampText(utc[i], ms[i]));
    Drop(SetColumn(f, TimestampColumn, stamps), {UtcColumn, MillisColumn})
  }

  /** `load_data`: builds the Timestamp text from 'UTC DateTime' and 'Milliseconds', drops
      both, then checks the expected columns; every failure surfaces as a ValueError. */
  function LoadData(f: Frame): (r: Result<Frame>)
    requires WellFormed(f)
    ensures r.Err? ==> r.error.ValueError?
    ensures r.Ok? ==> UtcColumn in f.columns && MillisColumn in f.columns && r.value == Loaded(f)
  {
    if UtcColumn in f.columns && MillisColumn in f.columns then
      var g := Loaded(f);
      var valid := ValidateFormat(g.columns);
      if valid.Err? then Err(ValueError("Error loading data from Vectronic file: " + valid.error.check))
      else Ok(g)
    else Err(MissingTimeColumns(f.columns))
  }

  /** Without both time columns, `load_data` fails naming the missing ones in order. */
  lemma LoadNeedsTimeColumns(f: Frame)
    requires WellFormed(f)
    requires UtcColumn !in f.columns || MillisColumn !in f.columns
    ensures LoadData(f) == Err(MissingTimeColumns(f.columns))
    ensures Missing([UtcColumn, MillisColumn], f.columns)
         == (if UtcColumn in f.columns then [] else [UtcColumn]) + (if MillisColumn in f.columns then [] else [MillisColumn])
  {
    assert [UtcColumn, MillisColumn][1..] == [MillisColumn];
  }

  /** `load_data` succeeds exactly when both time columns and the three acceleration columns
      are present. The loaded frame keeps every other column, gains Timestamp, loses the two
      time columns, and row `i` of Timestamp is the text built from row `i`. */
  lemma LoadDataCorrect(f: Frame)
    requires WellFormed(f)
    ensures LoadData(f).Ok? <==>
      UtcColumn in f.columns && MillisColumn in f.columns &&
      forall i :: 1 <= i < |ExpectedColumns| ==> ExpectedColumns[i] in f.columns
    ensures LoadData(f).Ok? ==>
      var g := LoadData(f).value;
      var utc := f.cells[UtcColumn];
      (forall c :: c in g.columns <==> (c in f.columns || c == TimestampColumn) && c != UtcColumn && c != MillisColumn) &&
      TimestampColumn in g.cells && |g.cells[TimestampColumn]| == |utc| &&
      (forall i :: 0 <= i < |utc| ==>
         g.cells[TimestampColumn][i] == TimestampText(utc[i], f.cells[MillisColumn][i]))
  {
    if UtcColumn in f.columns && MillisColumn in f.columns {
      LoadedTimestamps(f);
      ExpectedAfterLoad(f.columns, Loaded(f).columns);
    }
  }

  /** Once Timestamp is added and the time columns are dropped, the expected columns are
      all present exactly when the three acceleration columns were. */
  lemma ExpectedAfterLoad(before: seq<string>, after: seq<string>)
    requires forall c :: c in after <==> (c in before || c == TimestampColumn) && c != UtcColumn && c != MillisColumn
    ensures (forall i :: 0 <= i < |ExpectedColumns| ==> ExpectedColumns[i] in after) <==>
            (forall i :: 1 <= i < |ExpectedColumns| ==> ExpectedColumns[i] in before)
  {
    assert ExpectedColumns[0] == TimestampColumn;
    AccelerationColumnsDistinct();
  }

  /** The acceleration columns are neither Timestamp nor one of the time columns. */
  lemma AccelerationColumnsDistinct()
    ensures forall i :: 1 <= i < |ExpectedColumns| ==>
      ExpectedColumns[i] != TimestampColumn && ExpectedColumns[i] != UtcColumn && ExpectedColumns[i] != MillisColumn
  {
    forall i | 1 <= i < |ExpectedColumns|
      ensures ExpectedColumns[i] != TimestampColumn && ExpectedColumns[i] != UtcColumn && ExpectedColumns[i] != MillisColumn
    {
      assert ExpectedColumns[i][0] == 'A';
    }
  }

  /** Row `i` of the new Timestamp column is built from row `i` of the time columns. */
  lemma LoadedTimestamps(f: Frame)
    requires WellFormed(f) && UtcColumn in f.columns && MillisColumn in f.columns
    ensures var g := Loaded(f); var utc := f.cells[UtcColumn];
      TimestampColumn in g.cells && |g.cells[TimestampColumn]| == |utc| &&
      forall i :: 0 <= i < |utc| ==> g.cells[TimestampColumn][i] == TimestampText(utc[i], f.cells[MillisColumn][i])
  {
    var utc := f.cells[UtcColumn];
    var ms := f.cells[MillisColumn];
    var stamps := seq(|utc|, i requires 0 <= i < |utc| => TimestampText(utc[i], ms[i]));
    var h := SetColumn(f, TimestampColumn, stamps);
    assert h.cells[TimestampColumn] == stamps;
    assert Loaded(f).cells == h.cells - {UtcColumn, MillisColumn};
  }

  /** The timestamp text splits at its '.' back into the clock text and the millisecond
      digits, which still denote the milliseconds. */
  lemma TimestampTextSplits(utc: string, ms: nat)
    requires '.' !in utc
    ensures Split(TimestampText(utc, NatText(ms)), '.') == [utc, ZFill(NatText(ms), 3)]
    ensures AllDigits(ZFill(NatText(ms), 3)) && DecimalValue(ZFill(NatText(ms), 3)) == ms
  {
    var digits := NatText(ms);
    var padded := ZFill(digits, 3);
    assert TimestampText(utc, digits) == utc + ['.'] + padded;
    ZFillDigits(digits, 3);
    NoDotInDigits(padded);
    SplitAt(utc, '.', padded);
    SplitNoSep(padded, '.');
    NatTextValue(ms);
  }

  lemma NoDotInDigits(s: string)
    requires AllDigits(s)
    ensures '.' !in s
  {
    forall i | 0 <= i < |s|
      ensures s[i] != '.'
    {
      assert IsDigit(s[i]);
    }
  }

  /** A string without the separator splits into itself. */
  lemma {:induction false} SplitNoSep(s: string, sep: char)
    requires sep !in s
    ensures Split(s, sep) == [s]
  {
    if s != [] {
      SplitNoSep(s[1..], sep);
      assert [s[0]] + s[1..] == s;
    }
  }

  /** Zero padding a digit string keeps its value. */
  lemma {:induction false} ZFillDigits(s: string, width: nat)
    requires AllDigits(s) && |s| >= 1
    ensures AllDigits(ZFill(s, width)) && DecimalValue(ZFill(s, width)) == DecimalValue(s)
  {
    if |s| < width {
      var pad := seq(width - |s|, _ => '0');
      assert ZFill(s, width) == pad + s;
      PaddedValue(pad, s);
    }
  }

  lemma {:induction false} PaddedValue(pad: string, s: string)
    requires forall i :: 0 <= i < |pad| ==> pad[i] == '0'
    requires AllDigits(s)
    ensures AllDigits(pad + s) && DecimalValue(pad + s) == DecimalValue(s)
    decreases |s|
  {
    if s == [] {
      assert pad + s == pad;
      ZerosValue(pad);
    } else {
      var t := pad + s;
      assert t[..|t| - 1] == pad + s[..|s| - 1];
      PaddedValue(pad, s[..|s| - 1]);
    }
  }

  lemma {:induction false} ZerosValue(pad: string)
    requires forall i :: 0 <= i < |pad| ==> pad[i] == '0'
    ensures AllDigits(pad) && DecimalValue(pad) == 0
  {
    if pad != [] {
      ZerosValue(pad[..|pad| - 1]);
    }
  }

  /** `get_axes_config()`: every axis of `column_info` except the one displayed as
      "Timestamp". */
  function AxesConfig(v: VectronicMotionInput): (c: AxesConfigModel.AxesConfig)
    ensures c.axisDisplays == ColumnInfo[1..]
  {
    PlottedAxes();
    AxesConfigModel.AxesConfig(NonTimestamp(ColumnInfo))
  }

  function NonTimestamp(axes: seq<AxesConfigModel.Axis>): (r: seq<AxesConfigModel.Axis>)
    ensures forall a :: a in r <==> a in axes && !(a.Display? && a.displayName == "Timestamp")
  {
    if axes == [] then []
    else (if axes[0].Display? && axes[0].displayName == "Timestamp" then [] else [axes[0]]) + NonTimestamp(axes[1..])
  }

  /** The plotted axes are X, Y and Z in that order, read from the three acceleration
      columns, and carry no units. */
  lemma AxesAreXyz(v: VectronicMotionInput)
    ensures AxesConfigModel.AxisNames(AxesConfig(v)) == Ok(["X-axis", "Y-axis", "Z-axis"])
    ensures forall i :: 0 <= i < 3 ==> AxesConfig(v).axisDisplays[i].inputName == ExpectedColumns[i + 1]
    ensures AxesConfigModel.AxisUnits(AxesConfig(v)) == []
  {
    AxisNamesXyz(v);
    AxisInputs(v);
    AxesConfigModel.DisplaysHaveNoUnits(AxesConfig(v));
  }

  /** The plotted axes are all displays, named X, Y and Z. */
  lemma AxisNamesXyz(v: VectronicMotionInput)
    ensures forall i :: 0 <= i < |AxesConfig(v).axisDisplays| ==> AxesConfig(v).axisDisplays[i].Display?
    ensures AxesConfigModel.AxisNames(AxesConfig(v)) == Ok(["X-axis", "Y-axis", "Z-axis"])
  {
    PlottedAxes();
    var names := AxesConfigModel.AxisNames(AxesConfig(v));
    assert names.Ok? && |names.value| == 3;
    Three(names.value, "X-axis", "Y-axis", "Z-axis");
  }

  /** The plotted axes read the three acceleration columns, in order. */
  lemma AxisInputs(v: VectronicMotionInput)
    ensures |AxesConfig(v).axisDisplays| == 3
    ensures forall i :: 0 <= i < 3 ==> AxesConfig(v).axisDisplays[i].inputName == ExpectedColumns[i + 1]
  {
    var c := AxesConfig(v);
    PlottedAxes();
    ExpectedInputNames();
    forall i | 0 <= i < 3
      ensures c.axisDisplays[i].inputName == ExpectedColumns[i + 1]
    {
      assert c.axisDisplays[i] == ColumnInfo[i + 1];
    }
  }

  /** The expected columns are the input names of `column_info`, in order. */
  lemma ExpectedInputNames()
    ensures |ExpectedColumns| == |ColumnInfo|
    ensures forall i :: 0 <= i < |ColumnInfo| ==> ColumnInfo[i].inputName == ExpectedColumns[i]
  {
  }

  /** Only the first entry of `column_info` is displayed as "Timestamp". */
  lemma PlottedAxes()
    ensures NonTimestamp(ColumnInfo) == ColumnInfo[1..]
  {
    var tail := ColumnInfo[1..];
    assert tail[1..][1..][1..] == [];
    assert NonTimestamp(tail[1..][1..]) == tail[1..][1..];
    assert NonTimestamp(tail[1..]) == tail[1..];
    assert NonTimestamp(tail) == tail;
  }
}
