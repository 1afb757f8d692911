# AccelScope core, modelled in Dafny

AccelScope is a desktop tool for annotating accelerometer recordings from animal collars
with behaviour labels. This project models its core logic, with the widgets, pandas and
file I/O stripped away:

- **Labels** (`labels.dfy`): a behaviour over a time-of-day interval. It covers the
  constructor's start-before-end check, the duration, the `strptime`/`isoformat` dict forms
  and the `__str__` rendering. Times are microseconds since midnight, the resolution of
  Python's `datetime.time`.
- **The project tree and project file** (`entries.dfy`, `project_config.dfy`, `tree.dfy`):
  - directories and files with their recursive dict forms;
  - the project with its per-user data roots and its default values;
  - search and rebuilding of the tree by route (the child index at each level).
- **The project service** (`project_service.dfy`, class `ProjectService`):
  - path lookup;
  - adding directories, and adding files under a collision-checked id;
  - id search, parent lookup and deletion;
  - label and comment updates;
  - the per-user data root;
  - the step time and the plot title.
  
  Saving is counted, not written.
- **Settings and display records**: output and input settings, the user's window layout,
  data and label displays, axis descriptions, and the Vectronic Motion input type's column
  checks and timestamp text.
- **The viewer's annotation engine** (`viewer.dfy`, class `Viewer`; `viewport.dfy`;
  `overlap.dfy`):
  - the view window (pan, cursor-centred zoom with a 10 % margin, fit to labels, show all);
  - the overlap adjustment of a new label;
  - hover, edge hit-testing and drag-resize;
  - two-click creation, deletion and change of behaviour.
  
  Positions on the time axis are microseconds since 1900-01-01 00:00, the day every label
  rectangle is drawn on. Python keys rectangles by the label objects themselves, so each
  label carries a handle that stands for its identity.
- **The earlier revision** of the viewer (`legacy_viewer.dfy`, class `OldViewer`) and of
  the project configuration (`legacy_config.dfy`, class `ProjectConfig`).
- **Small algorithms**:
  - the label-gap lookup for the info pane (`nearest.dfy`);
  - the info pane's duration with its midnight wrap (`info_pane.dfy`);
  - the running-maximum backtrack scan and the incomplete-day test (`backtrack.dfy`).

The helper modules are:

- `Json`: JSON values as Python's `json` module produces them.
- `Text`: digits, `split`, `strip` and `zfill`.
- `Paths`: `posixpath.join`, `dirname`, `basename` and `splitext`.
- `Sorting`: Python's stable sort by key.
- `Wrappers`: `Option`, `Result` and the Python exceptions the code raises.

Where the source is wrong, the model records the code as written next to a corrected
version (see "## Findings"). The rest of the model uses the corrected version.

## Model

| member | source | states |
|---|---|---|
| LabelDisplays.DictRoundTrip | src/models/label_display.py:11-28 | `to_dict` writes exactly `display_name`, `color`, `alpha` and `output_value`, and `from_dict` gives back the same four fields |
| LabelDisplays.FromDictAccepts | src/models/label_display.py:20-28 | `from_dict` succeeds on a dict exactly when all four keys are present |
| LabelDisplays.ToDict | src/models/label_display.py:11-19 | the dict has exactly the four keys `display_name`, `color`, `alpha` and `output_value` |
| LabelDisplays.FromDict | src/models/label_display.py:20-28 | succeeds exactly on a dict holding all four keys, and the display read back writes exactly those four values |
| DataDisplays.DictRoundTrip | src/models/data_display.py:13-32 | `to_dict` writes exactly the five keys, and `from_dict` gives back the same five fields |
| DataDisplays.FromDictAccepts | src/models/data_display.py:23-32 | `from_dict` succeeds on a dict exactly when all five keys are present |
| DataDisplays.ToDict | src/models/data_display.py:13-22 | the dict has exactly the five keys |
| DataDisplays.FromDict | src/models/data_display.py:23-32 | succeeds exactly on a dict holding all five keys, and the display read back writes exactly those five values |
| AxesConfigModel.AxisNames | src/models/axes_config.py:45-46 | succeeds exactly when every axis is an `AxisDisplay`; the names then come one per axis, the i-th being the i-th axis's `display_name` |
| AxesConfigModel.DisplaysHaveNoUnits | src/models/axes_config.py:48-49 | a list of `AxisDisplay` has no units, because only `AxisInfo` carries one |
| AxesConfigModel.UnitsOfConcat | src/models/axes_config.py:48-49 | the units of two lists joined are the units of each list, in list order |
| AxesConfigModel.AxisUnits | src/models/axes_config.py:48-49 | a unit is listed exactly when some `AxisInfo` in the list carries it, and there are no more units than axes |
| InputSettingsModel.Validate | src/models/input_settings.py:28-33 | passes exactly when the type is an enum member and the frequency is a positive number (`True` counts as 1) |
| InputSettingsModel.ToDict | src/models/input_settings.py:35-40 | succeeds exactly when the type is an enum member, whose `.value` it writes |
| InputSettingsModel.FromDict | src/models/input_settings.py:43-57 | succeeds exactly on a dict whose `input_type` is the member's value (a missing key falls back to "UnknownInputType", which names none); the frequency is the stored one, or 0 when missing |
| InputSettingsModel.DictRoundTrip | src/models/input_settings.py:35-57 | settings with an enum type come back from `from_dict(to_dict(s))` unchanged |
| InputSettingsModel.MissingTypeRejected | src/models/input_settings.py:50-55 | without `input_type` the fallback "UnknownInputType" names no member, so `from_dict` raises ValueError |
| InputSettingsModel.MissingFrequencyInvalid | src/models/input_settings.py:50-57 | without `input_frequency` the frequency is 0, which `validate` rejects |
| OutputSettingsModel.ParseOutputType | src/models/output_settings.py:24-31 | accepts exactly "bebe" and "other", and the member found has that string as its value |
| OutputSettingsModel.ParseDownsampleMethod | src/models/output_settings.py:4-11 | accepts exactly "average" and "nth_value", and the member found has that string as its value |
| OutputSettingsModel.ParseOutputPeriod | src/models/output_settings.py:14-21 | accepts exactly "entire_input" and "labeled_with_buffer", and the member found has that string as its value |
| OutputSettingsModel.DictRoundTrip | src/models/output_settings.py:54-79 | `from_dict(to_dict(s))` equals `s` field by field |
| OutputSettingsModel.EmptyDictGivesDefaults | src/models/output_settings.py:67-79 | the empty dict loads as the constructor's defaults: BEBE, AVERAGE, ENTIRE_INPUT, 16, 5, 1 |
| OutputSettingsModel.MissingKeysTakeDefaults | src/models/output_settings.py:67-79 | in any dict that loads, each missing key takes its own default and each numeric key present is taken as given |
| OutputSettingsModel.WithoutEnumsLoads | src/models/output_settings.py:67-79 | a dict without the three enum keys always loads, whatever its numeric keys hold |
| OutputSettingsModel.UnknownOutputType | src/models/output_settings.py:73 | an `output_type` string that names no member makes `from_dict` raise ValueError |
| OutputSettingsModel.ToDict | src/models/output_settings.py:54-65 | the dict has exactly the six keys, and each enum is written as a string that parses back to that member |
| OutputSettingsModel.FromDict | src/models/output_settings.py:67-79 | succeeds exactly on a dict in which every enum key present names a member; each such key is then the value of the member read |
| UserAppConfigModel.New | src/models/user_app_config.py:6-18 | the stored `axes_display` is always truthy: the given one when truthy, otherwise all three axes shown |
| UserAppConfigModel.Defaults | src/models/user_app_config.py:6-18 | the defaults are geometry "1200x800", widths 200, 800 and 200, no project, no zoom level and all axes shown |
| UserAppConfigModel.DictRoundTrip | src/models/user_app_config.py:20-49 | `to_dict` writes exactly the ten keys; `from_dict` gives every field back, except that a falsy `axes_display` becomes the default |
| UserAppConfigModel.ConstructedRoundTrip | src/models/user_app_config.py:16-49 | a configuration the constructor built comes back unchanged |
| UserAppConfigModel.EmptyDict | src/models/user_app_config.py:36-49 | unlike the constructor, an empty dict gives no geometry and no viewer width; only `axes_display` gets its default |
| UserAppConfigModel.ToDict | src/models/user_app_config.py:20-33 | the dict has exactly the ten keys |
| UserAppConfigModel.FromDict | src/models/user_app_config.py:35-49 | succeeds exactly on a dict; the geometry and the three widths are the stored values or None when missing, and `axes_display` is always truthy |
| InfoPane.TimeOf | src/gui_components/info_pane.py:212-215 | a datetime is reduced to its time of day, the same instant up to whole days; a time is kept |
| InfoPane.Duration | src/gui_components/info_pane.py:217-225 | lies in [0, one day), leads from the start's time of day to the end's modulo one day, and is the plain difference when the end is not earlier |
| InfoPane.CalculateDuration | src/gui_components/info_pane.py:226-232 | seconds exactly when the duration is under one minute; the value shown is the duration in seconds, or else in minutes |
| InfoPane.DurationUnique | src/gui_components/info_pane.py:217-225 | the duration is the only span under a day that leads from the start to the end |
| InfoPane.ShownRange | src/gui_components/info_pane.py:226-232 | seconds shown lie in [0, 60) and minutes in [1, 1440) |
| InfoPane.SwappedComplement | src/gui_components/info_pane.py:221-225 | swapping two different end points gives the rest of the day |
| Sorting.SortByCorrect | src/data_processing/accel_data_processor.py:9 | the sorted list is ordered by the key and is a permutation of the input |
| Sorting.SortBySorted | src/data_processing/accel_data_processor.py:9 | a list already in key order is left as it is, so equal keys keep their order |
| Sorting.SortByStable | src/data_processing/accel_data_processor.py:9 | the sort is stable: the elements sharing any one key come out in the order they went in |
| Nearest.FindNearestBehaviors | src/data_processing/accel_data_processor.py:7-37 | the loop over the sorted copy returns the pair `FindNearest` gives; the caller's list is a value and stays as it was |
| Nearest.Scan | src/data_processing/accel_data_processor.py:15-27 | with no labels left nothing changes; every boundary found is the start or end of one of the labels |
| Nearest.FindNearest | src/data_processing/accel_data_processor.py:7-37 | each side of the result is the start or end of one of the labels, or else that side's data bound |
| Nearest.ScanInside | src/data_processing/accel_data_processor.py:15-20 | in start order, the first label containing `t` gives its own start and end |
| Nearest.ScanBefore | src/data_processing/accel_data_processor.py:24-27 | before every label, no previous boundary is found and the first start is the next one |
| Nearest.ScanAfter | src/data_processing/accel_data_processor.py:21-23 | after every label, the previous boundary is the end of the last label in start order and there is no next one |
| Nearest.ScanGap | src/data_processing/accel_data_processor.py:21-27 | in a gap, the next boundary is the first start after `t` and the previous one is the end of the label just before it |
| Nearest.ScanBrackets | src/data_processing/accel_data_processor.py:15-27 | in any order, a previous boundary is at most `t` and a next one at least `t` |
| Nearest.SortedWellFormed | src/data_processing/accel_data_processor.py:9 | the sorted copy is in start order, is a permutation of the labels and keeps each label's start before its end |
| Nearest.NearestBrackets | src/data_processing/accel_data_processor.py:15-35 | for `t` within the data, `prev <= t <= next` |
| Nearest.NearestNoLabels | src/data_processing/accel_data_processor.py:29-35 | with no labels, the data's first and last timestamps come back |
| Nearest.NearestBefore | src/data_processing/accel_data_processor.py:24-31 | before every label: the data's first timestamp, and the earliest start of all labels |
| Nearest.NearestAfter | src/data_processing/accel_data_processor.py:21-35 | after every label: the end of the last label in start order, and the data's last timestamp |
| Nearest.NearestInside | src/data_processing/accel_data_processor.py:15-20 | inside a label: the first label in start order containing `t` gives its start and end |
| Nearest.NearestGap | src/data_processing/accel_data_processor.py:21-27 | in a gap: the end of the label just before the first one starting after `t`, and that one's start |
| Nearest.NearestExamples | src/data_processing/accel_data_processor.py:7-37 | worked examples over two labels: inside, before, after and inside the second |
| Overlap.ShiftedTime | src/gui_components/viewer.py:518-521 | succeeds exactly on non-negative sums (one before `datetime.min` is OverflowError) and keeps a sum that stays within the day |
| Overlap.AdjustStep | src/gui_components/viewer.py:516-525 | after one pass against a label, the pair is in order |
| Overlap.Adjust | src/gui_components/viewer.py:498-525 | the only failure is `OverflowError`, and it cannot happen while every label leaves room for the buffer on both sides |
| Overlap.Validate | src/gui_components/viewer.py:488-532 | fails only with `OverflowError`, never while every label leaves room for the buffer; with no labels, the times of day of the two positions in position order |
| Overlap.AdjustOrdered | src/gui_components/viewer.py:498-525 | after at least one label has been looked at, the pair is in order |
| Overlap.ValidateOrdered | src/gui_components/viewer.py:488-532 | the result starts no later than it ends whenever there is a label, or both positions fall on the same day |
| Overlap.ValidateAcrossMidnight | src/gui_components/viewer.py:488-532 | with no labels, positions on two different days reduce to times of day that come out reversed |
| Overlap.AdjustClear | src/gui_components/viewer.py:517-521 | an interval with no end point inside any label comes back unchanged, even one that strictly contains a label |
| Overlap.OverlapExample | src/gui_components/viewer.py:517-518 | against 10:00-10:05, a proposed 10:04-10:06 becomes 10:05 plus the buffer to 10:06 |
| Overlap.OneLabelAvoided | src/gui_components/viewer.py:517-521 | with one label, a positive buffer and no wrap, neither end of the result lies inside the label |
| Overlap.ValidateApart | src/gui_components/viewer.py:484-532 | the corrected validation: whatever the number of labels, a result overlaps none of them; it succeeds exactly when the adjustment as written succeeds and its result is clear of every label, and then returns that result; otherwise the error is the adjustment's own or a ValueError (see "## Findings") |
| Overlap.InsideLabelSwallowed | src/gui_components/viewer.py:486-525 | against a label 10:00-10:05, a proposed 10:01-10:02 comes back as 10:00 minus the buffer to 10:05 plus the buffer, which contains the label, and the corrected validation rejects it |
| Viewport.Pan | src/gui_components/viewer.py:81-109 | a plain pan keeps the width and moves the start by 5 % of it; past the start the window is pinned at `data_min` with end `min(data_max, data_min + width)`, and symmetrically at the end |
| Viewport.PanStaysInData | src/gui_components/viewer.py:99-109 | from an ordered window the result lies in `[data_min, data_max]`, and it is pinned at the start exactly when the plain shift would cross it |
| Viewport.Margined | src/gui_components/viewer.py:388-392 | the margined range contains the data range |
| Viewport.Zoom | src/gui_components/viewer.py:379-409 | each scaled edge is clamped on its own side to the margined range, and the whole margined range is shown exactly when the clamped window is at least as wide; otherwise the share is the window's width over the margined width (negative when the scaled window lies wholly outside and the clamp inverts it), and with no data extent a window that does not show everything comes out inverted with a share of minus infinity |
| Viewport.ZoomWithoutExtent | src/gui_components/viewer.py:379-409 | when the data has no extent and the scaled window lies wholly on one side of the single data point, the clamped window is inverted and the share is minus infinity |
| Viewport.ZoomScales | src/gui_components/viewer.py:379-382 | before clamping, the width is divided by the factor and the cursor keeps its relative position |
| Viewport.ZoomInOut | src/gui_components/viewer.py:379-382 | zooming in and then out around the same cursor gives the window back |
| Viewport.ZoomUnclamped | src/gui_components/viewer.py:394-407 | a scaled window that fits inside the margined range is kept as it is |
| Viewport.ShowAll | src/gui_components/viewer.py:665-684 | `zoom_out_to_show_all` sets the margined range, 1.2 times the data span wide |
| Viewport.MinStart | src/gui_components/viewer.py:633 | the earliest start: no label starts earlier, and some label starts there |
| Viewport.MaxEnd | src/gui_components/viewer.py:634 | the latest end: no label ends later, and some label ends there |
| Viewport.FitLabels | src/gui_components/viewer.py:621-654 | a window comes back exactly when there are labels: from `s` to `e` widened by 5 % of `e - s` on each side, where `s` is the later of the data start and the earliest label start and `e` the earlier of the data end and the latest label end |
| Viewport.FitContainsLabels | src/gui_components/viewer.py:629-654 | every label that lies inside the data lies inside the fitted window |
| Backtrack.StepRecords | src/data_processing/backtrack_analysis.py:49-55 | a row adds one record for each test it meets (midnight and backtrack), each pairing its timestamp with the maximum |
| Backtrack.MaxBefore | src/data_processing/backtrack_analysis.py:42-57 | the maximum is `pd.Timestamp.min` exactly before the first row, and otherwise the timestamp of an earlier row |
| Backtrack.Records | src/data_processing/backtrack_analysis.py:42-57 | at most two records per row, each at the timestamp of one of the rows |
| Backtrack.Scan | src/data_processing/backtrack_analysis.py:42-57 | the loop records exactly the row-by-row records and ends holding the running maximum over all rows |
| Backtrack.MaxBeforeIsLargest | src/data_processing/backtrack_analysis.py:54-57 | once a row has been read, the maximum kept is the largest timestamp read so far |
| Backtrack.MaxBeforePrefix | src/data_processing/backtrack_analysis.py:46-57 | the maximum at a row depends only on the rows before it |
| Backtrack.RowStep | src/data_processing/backtrack_analysis.py:46-57 | one more row appends its records and keeps the maximum unless the row is no earlier than it |
| Backtrack.BackwardIffEarlierLater | src/data_processing/backtrack_analysis.py:54-57 | a row counts as a backtrack exactly when some earlier row is later than it |
| Backtrack.MaxNeverDecreases | src/data_processing/backtrack_analysis.py:54-57 | the maximum never decreases from one row to a later one |
| Backtrack.OrderedDayClean | src/data_processing/backtrack_analysis.py:42-57 | a file in time order within one day whose first row is no earlier than 00:12:43.145224 records nothing |
| Backtrack.OrderedRowClean | src/data_processing/backtrack_analysis.py:49-57 | in such a file, no row meets either test |
| Backtrack.NoStepAfter | src/data_processing/backtrack_analysis.py:49-55 | a row no earlier than the maximum on the same day meets neither test |
| Backtrack.NoStepFirst | src/data_processing/backtrack_analysis.py:42-55 | a first row no earlier than the time of day of `pd.Timestamp.min` meets neither test |
| Backtrack.EarlyFirstRow | src/data_processing/backtrack_analysis.py:42-51 | a first row before 00:12:43.145224 is recorded against `pd.Timestamp.min`, even in a file in time order |
| Backtrack.MidnightRecordedTwice | src/data_processing/backtrack_analysis.py:49-55 | a row at 00:30 after one at 23:59 is recorded twice, once by each test |
| Backtrack.ProcessRows | src/data_processing/backtrack_analysis.py:39-67 | a file with at least one row gives its records and its first and last clocks; a file with none fails |
| Backtrack.FullDayComplete | src/data_processing/backtrack_analysis.py:100-101 | a file from midnight to 23:59:59 is not an incomplete day |
| Backtrack.Tally | src/data_processing/backtrack_analysis.py:94-112 | the file count is the number of parsed files with backtracks and the total is the sum of their backtrack counts |
| Backtrack.Flagged | src/data_processing/backtrack_analysis.py:94-112 | the files counted are parsed files with backtracks, no more than the results |
| Backtrack.TotalLength | src/data_processing/backtrack_analysis.py:108-110 | files that all have backtracks hold at least one backtrack each |
| Backtrack.AverageBacktracks | src/data_processing/backtrack_analysis.py:121-123 | the average line is written exactly when some file has backtracks, and is then the total over the file count, at least 1 |
| Backtrack.RatioAtLeastOne | src/data_processing/backtrack_analysis.py:123 | a total at least the count gives a ratio of at least 1 |
| Entries.NewFile | src/models/file_entry.py:8-11 | a new file entry has the given path and id, no comment, and the given labels or none |
| Entries.NewDir | src/models/directory_entry.py:8-10 | a new directory has the given name and no entries |
| Entries.LabelsFromJson | src/models/file_entry.py:22 | on success, one label per item, each what `Label.from_dict` gives for that item |
| Entries.FileFromDict | src/models/file_entry.py:20-23 | on success, a file entry, with no comment since none is stored |
| Entries.DirFromDict | src/models/directory_entry.py:18-26 | on success, a directory |
| Entries.ToDict | src/models/file_entry.py:13-18 | a file is written with exactly `path`, `id` and `labels`, its own id under `id`; a directory (directory_entry.py:12-16) with exactly `name` and one `entries` item per child |
| Entries.ChildFromDict | src/models/directory_entry.py:21-25 | a child read back is a file exactly when its dict has "path" |
| Entries.DirectoryFromDict | src/models/directory_entry.py:18-26 | the loop that appends child by child gives what converting every child in order gives, or the first child's failure |
| Entries.ChildrenFailurePersists | src/models/directory_entry.py:20-25 | once a child fails to convert, converting more children fails with the same error |
| Entries.ChildrenConvert | src/models/directory_entry.py:20-25 | where every child converts, the first `n` children give the first `n` entries |
| Entries.LabelsRoundTrip | src/models/file_entry.py:13-23 | a list of valid labels written by `to_dict` is read back unchanged |
| Entries.DictRoundTrip | src/models/directory_entry.py:12-26 | `from_dict(to_dict(e))` rebuilds the whole tree (names, paths, ids, labels and child order), all but the comments, which are not stored |
| Labels.ParseTime | src/models/label.py:14 | `strptime` with "%H:%M:%S.%f" fails only with ValueError |
| Labels.ParseBareClock | src/models/label.py:14 | a whole-second "HH:MM:SS" has no "." before the fraction, so the format rejects it |
| Labels.StampRoundTrip | src/models/label.py:14 | every time of day parses back from its clock with all six fraction digits |
| Labels.IsoRoundTrip | src/models/label.py:57-62 | `isoformat()` parses back with the label format exactly when the time has a nonzero fraction, and otherwise fails with the format error |
| Labels.ClockMillisRoundTrip | src/models/label.py:30-31 | the millisecond rendering `__str__` uses parses back to the time cut to whole milliseconds |
| Labels.IsoFormat | src/models/label.py:57-62 | `isoformat()` writes 8 characters on a whole second and 15 otherwise, starts with the clock, and equals the six-digit stamp exactly when the fraction is not zero |
| Labels.Describe | src/models/label.py:29-32 | `str(label)` starts with the behaviour and " : " and is long enough to hold both times |
| Labels.DescribeReadsBack | src/models/label.py:29-32 | the two times in `str(label)` parse back as the label's times cut to the millisecond |
| Labels.ToDict | src/models/label.py:57-62 | the dict has exactly `start_time`, `end_time` and `behavior`, and both times written read back as the label's own |
| Labels.AsWrittenToDict | src/models/label.py:57-62 | the dict has the same three keys, and each time reads back exactly when it is not on a whole second |
| Labels.ResolveTime | src/models/label.py:13-21 | a time given as a time is kept as it is |
| Labels.NewLabel | src/models/label.py:5-48 | succeeds exactly when both times resolve and the start is before the end; the label then keeps those times and the behaviour, and its duration is end minus start |
| Labels.Rebuild | src/models/label.py:5-27 | the constructor given a label's own times and behaviour builds that label again |
| Labels.TimeFromJson | src/models/label.py:13-21 | the time a dict value stands for: a string parses; TypeError exactly for a value that is not a string |
| Labels.KeptTime | src/models/label.py:13-21 | a string time is parsed, failing only with its ValueError; any other value is kept (no time of day) |
| Labels.FromDict | src/models/label.py:5-55 | every label read from a dict starts before it ends, carries the dict's behaviour and has end minus start as its duration; with all three keys present, TypeError comes only from a value that is not a string |
| Labels.NonStringStartKept | src/models/label.py:13-21 | a start that is not a string is kept, so a malformed end string still fails first with its ValueError |
| Labels.NonStringTimeFails | src/models/label.py:13-38 | a time that is not a string, with every string time parsing, fails the duration arithmetic with TypeError |
| Labels.NullStartBadEnd | src/models/label.py:50-55 | `{"start_time": null, "end_time": "bad", "behavior": "x"}` fails with ValueError, the class `main.py` catches around `from_dict` |
| Labels.FromDictOf | src/models/label.py:50-55 | a dict whose two time strings parse gives what the constructor makes of those times |
| Labels.FromDictRejects | src/models/label.py:50-55 | a start string that fails to parse gives its error; else an end string that fails gives its error |
| Labels.AsWrittenDictRoundTrip | src/models/label.py:50-62 | with `isoformat()`, a label comes back exactly when neither time is on a whole second, and then unchanged |
| Labels.WholeSecondStartLost | src/models/label.py:57-62 | a label starting on a whole second is saved without a fraction and fails to load with the format error |
| Labels.WholeSecondLabelLost | src/models/label.py:50-62 | a label from 10:00:00 to 10:05:00 is lost as written and comes back when all six digits are written |
| Labels.DictRoundTrip | src/models/label.py:50-62 | with all six fraction digits written, every label the constructor accepts comes back from `from_dict(to_dict(l))` unchanged |
| Tree.FindFile | src/services/project_service.py:349-358 | a route the search returns has at least one step |
| Tree.FindFileCorrect | src/services/project_service.py:349-358 | the search finds nothing exactly when no file carries the id, and otherwise leads to the first file with that id in pre-order |
| Tree.FindDirectChild | src/services/project_service.py:349-358 | with at most one file carrying the id, a file directly in the list is found at its own index |
| Tree.FindParent | src/services/project_service.py:443-456 | a route the parent search returns has at least one step |
| Tree.FindParentSound | src/services/project_service.py:443-456 | what the parent search returns is a directory with a direct child file carrying the id |
| Tree.RootFileHasNoParent | src/services/project_service.py:445-447 | a matching file at the head of the list ends the search with no parent |
| Tree.NoFileNoParent | src/services/project_service.py:443-456 | when no file carries the id there is no parent |
| Tree.ParentOfUnique | src/services/project_service.py:443-456 | when exactly one file carries the id, the parent search returns the directory just above the file that `find_file_by_id` finds |
| Tree.RootLevelNoParent | src/services/project_service.py:443-456 | a file the search finds directly in the root list has no parent directory |
| Tree.ChildDir | src/services/project_service.py:160-164 | the first directory child with the segment's name, or none when no directory child has it |
| Tree.Walk | src/services/project_service.py:154-167 | a successful walk takes one step per path segment |
| Tree.WalkSound | src/services/project_service.py:154-170 | the walk leads through directories and ends at a directory named by the last segment |
| Tree.ReplaceFiles | src/services/project_service.py:104-110 | editing one node in place keeps every file before and after it where it was |
| Tree.ReplaceAtHits | src/services/project_service.py:104-110 | after the edit, the same route leads to the new node |
| ProjectServiceModel.Segments | src/services/project_service.py:154 | stripping and splitting a path always gives at least one segment |
| ProjectServiceModel.Locate | src/services/project_service.py:141-170 | the root list exactly for an empty path or the project name; otherwise the directory the walk reaches, named by the last segment, or nothing exactly when some segment names no directory child |
| ProjectServiceModel.WalkStops | src/services/project_service.py:165-167 | a segment that no directory child carries ends the lookup with nothing found |
| ProjectServiceModel.AppendAt | src/services/project_service.py:189 | after the append, the directory keeps its name and has the new entry after its old ones |
| ProjectServiceModel.AddDirectoryTo | src/services/project_service.py:179-196 | fails with ValueError exactly when the parent is not found; otherwise a new empty directory ends the root list or the parent's entries |
| ProjectServiceModel.AddFileTo | src/services/project_service.py:209-219 | succeeds exactly when the parent is a directory, appending the file there; the root list is a plain list, so `parent_dir.entries` raises AttributeError, and an unknown parent raises ValueError |
| ProjectServiceModel.AddDirectoryKeepsFiles | src/services/project_service.py:172-196 | adding a directory leaves the files of the tree and their order as they were |
| ProjectServiceModel.AppendFindable | src/services/project_service.py:198-219 | a file with an id no file carries is, once appended, the only file with that id and the one the search finds; every other id's count is kept |
| ProjectServiceModel.AddFileKeepsIdsUnique | src/services/project_service.py:198-219 | adding a file with a fresh id keeps the ids of the tree unique |
| ProjectServiceModel.FirstFree | src/services/project_service.py:324-332 | the first candidate id that is not taken, with every earlier one taken, or none when all are taken |
| ProjectServiceModel.FindEntry | src/services/project_service.py:349-358 | the first file with the id in depth-first pre-order, and none exactly when no file carries it |
| ProjectServiceModel.IndexOf | src/services/project_service.py:435 | `list.remove` removes the first element equal to the file, and fails exactly when there is none |
| ProjectServiceModel.DeleteFile | src/services/project_service.py:420-441 | an unknown id, or a file directly in the root list (which has no parent), changes nothing |
| ProjectServiceModel.RemoveChildFiles | src/services/project_service.py:435 | removing a file child from its directory removes that file from the tree's file order and nothing else |
| ProjectServiceModel.DeleteFileIs | src/services/project_service.py:420-441 | when the one file with the id sits below the root list, the deletion takes exactly that child out of its parent directory |
| ProjectServiceModel.DeleteRemovesFile | src/services/project_service.py:420-441 | deleting the one file with the id leaves every other file in its order, and the id is no longer found |
| ProjectServiceModel.Patched | src/services/project_service.py:104-114 | new labels replace the label list, a comment is set; path and id are kept, and so is the other field |
| ProjectServiceModel.UpdateFile | src/services/project_service.py:104-114 | changes the tree exactly when some file carries the id, and never fails |
| ProjectServiceModel.UpdateOnlyTarget | src/services/project_service.py:104-114 | only the first file with the id is rewritten; every other file and the order of all files are kept |
| ProjectServiceModel.UpdateThenFind | src/services/project_service.py:458-468 | right after an update, the search finds the patched file |
| ProjectServiceModel.UserDataPath | src/services/project_service.py:478-488 | succeeds exactly when the user or "default" has an entry, taking the user's first; otherwise FileNotFoundError |
| ProjectServiceModel.DataPathMatchesUserPath | src/services/project_service.py:478-488 | where it does not raise, `get_user_data_path` agrees with `ProjectConfig.get_user_path`, and it raises only where that returns None |
| ProjectServiceModel.ResolvedRoot | src/services/project_service.py:51-64 | the root chosen is never empty: the user's value when truthy, otherwise the default when truthy |
| ProjectServiceModel.ResolveDiffersFromGet | src/services/project_service.py:44-64 | a user whose entry is an empty path gets the default root when resolving, but the empty path from `get_user_data_path` |
| ProjectServiceModel.FilePath | src/services/project_service.py:116-129 | a path comes back exactly when the active root is a non-empty string |
| ProjectServiceModel.StepTime | src/services/project_service.py:412-418 | fails only for a zero frequency; otherwise the whole milliseconds of one step rounded up: the smallest value whose product with the frequency reaches 1000 |
| ProjectServiceModel.StepTimes | src/services/project_service.py:412-418 | 16 Hz gives 63 ms, 10 Hz 100 ms, 1 Hz 1000 ms and 25 Hz 40 ms |
| ProjectServiceModel.PlotTitle | src/services/project_service.py:393-410 | for a file stored under the active root, the title is the fifth ancestor's name up to its first underscore, four spaces and the file name without its extension |
| ProjectServiceModel.PlotTitleShape | src/services/project_service.py:393-410 | a data file `<stem>.<ext>` four directories below a collar directory `<id>_<rest>` is titled `<id>    <stem>` |
| ProjectServiceModel.Title | src/services/project_service.py:393-410 | the title ends with four spaces and the file name without its extension, and the collar id before them has no underscore |
| ProjectServiceModel.AsWrittenSearchFails | src/services/project_service.py:349-358 | on a tree loaded from a project file, the search as written raises as soon as the tree holds a file, and otherwise finds nothing |
| ProjectServiceModel.AsWrittenSearchCounterexample | src/services/project_service.py:352 | on a tree of one directory holding one file, the search as written raises, while the search by the stored id finds the file |
| ProjectServiceModel.AsWrittenStampLost | src/services/project_service.py:206 | as written, a file added under a directory, saved and loaded back, cannot be found by the generated id, where the stamped file of the corrected add is found by it |
| ProjectServiceModel.ProjectService.constructor | src/services/project_service.py:18-23 | a new service has no project loaded, a 16 Hz input and no saves |
| ProjectServiceModel.ProjectService.LoadProject | src/services/project_service.py:25-42 | a configuration that parses replaces the current one and has its data root resolved; a parse failure leaves the service as it was |
| ProjectServiceModel.ProjectService.ResolveDataRootDirectory | src/services/project_service.py:44-64 | the resolved root is recorded as "active" only when it exists; nothing else in the project changes |
| ProjectServiceModel.ProjectService.FindDirectoryByPath | src/services/project_service.py:141-170 | the loop over segments answers what `Locate` answers, and nothing without a project |
| ProjectServiceModel.ProjectService.FindSubdirectory | src/services/project_service.py:160-164 | the scan stops at the first directory child with the name, or at the end when there is none |
| ProjectServiceModel.ProjectService.AddDirectory | src/services/project_service.py:172-196 | without a project nothing happens; otherwise the tree becomes what `AddDirectoryTo` gives, the error is its error, and the project is saved once exactly when it changed |
| ProjectServiceModel.ProjectService.GenerateUniqueId | src/services/project_service.py:324-332 | the id returned is the first candidate not taken, so no file in the tree carries it |
| ProjectServiceModel.ProjectService.AddFile | src/services/project_service.py:198-219 | the corrected add: the generated id (the first free one, stamped even when the parent is then not found) becomes the stored id; on success the id search finds exactly the stamped file (the code as written sets only the object's `id` attribute, see "## Findings") |
| ProjectServiceModel.ProjectService.FindFileById | src/services/project_service.py:341-347 | nothing without a project; otherwise the first file with the id in pre-order |
| ProjectServiceModel.ProjectService.DeleteFileById | src/services/project_service.py:420-441 | without a project nothing happens; otherwise the tree becomes what `DeleteFile` gives, and the project is saved once exactly when it changed |
| ProjectServiceModel.ProjectService.UpdateFileById | src/services/project_service.py:104-114 | without a project nothing happens; otherwise the first file with the id is patched and the project saved, and an unknown id changes nothing |
| ProjectServiceModel.ProjectService.GetUserDataPath | src/services/project_service.py:478-488 | without a project the attribute access fails; otherwise the user's path, else the default, else FileNotFoundError |
| ProjectServiceModel.ProjectService.GetFilePath | src/services/project_service.py:116-129 | nothing without a project; otherwise the file's path under the active root, when there is one |
| ProjectServiceModel.ProjectService.GetLabelDisplay | src/services/project_service.py:131-139 | a display comes back exactly when one has the behaviour as its name, and it is the first such display |
| ProjectServiceModel.ProjectService.GetStepTimeMs | src/services/project_service.py:412-418 | the step time of the service's input frequency |
| ProjectServiceModel.ProjectService.GetPlotTitle | src/services/project_service.py:393-410 | without a file path the path functions fail with TypeError; otherwise the title of that path |
| ProjectConfigModel.RootsOr | src/models/project_config.py:29 | the stored root map is never empty: the given one when non-empty, otherwise `{"default": None}` |
| ProjectConfigModel.UserPath | src/models/project_config.py:83-85 | the user's path when the user has an entry, else the default path, else None |
| ProjectConfigModel.RootsFromJson | src/models/project_config.py:54 | a root map read back has exactly the keys of the dict it came from |
| ProjectConfigModel.DirsFromJson | src/models/project_config.py:48 | on success, one directory per item, each what `DirectoryEntry.from_dict` gives for that item |
| ProjectConfigModel.DataDisplaysFromJson | src/models/project_config.py:49 | on success, one data display per item |
| ProjectConfigModel.LabelDisplaysFromJson | src/models/project_config.py:50 | on success, one label display per item |
| ProjectConfigModel.FromDict | src/models/project_config.py:45-63 | a project read from a dict has a non-empty root map and only directories at the top of its tree |
| ProjectConfigModel.ToDict | src/models/project_config.py:34-43 | the dict has exactly the six keys, the project name as a string, and one list item per entry, data display and label display |
| ProjectConfigModel.ProjectConfig.constructor | src/models/project_config.py:18-32 | the new project holds the given name, lists and settings, with an empty root map replaced by `{"default": None}` |
| ProjectConfigModel.ProjectConfig.Load | src/models/project_config.py:45-63 | `from_dict` builds a new project exactly when the dict parses, holding what was parsed, and otherwise gives the parse error |
| ProjectConfigModel.ProjectConfig.AddUserPath | src/models/project_config.py:72-75 | sets or overwrites one user's path; nothing else changes |
| ProjectConfigModel.ProjectConfig.RemoveUserPath | src/models/project_config.py:77-81 | drops the user's entry when there is one, and otherwise changes nothing |
| ProjectConfigModel.AddThenGet | src/models/project_config.py:72-85 | adding a user's path and reading it gives that path back; the lookups of other users are kept |
| ProjectConfigModel.RemoveThenGet | src/models/project_config.py:77-85 | after a user is removed, a lookup for that user falls back to the default path |
| ProjectConfigModel.RootsRoundTrip | src/models/project_config.py:38-58 | a non-empty root map is written as a truthy dict and read back unchanged |
| ProjectConfigModel.DirsRoundTrip | src/models/project_config.py:39-48 | a list of directories is read back as the same tree without comments |
| ProjectConfigModel.DataDisplaysRoundTrip | src/models/project_config.py:40-49 | the data displays are read back unchanged |
| ProjectConfigModel.LabelDisplaysRoundTrip | src/models/project_config.py:41-50 | the label displays are read back unchanged |
| ProjectConfigModel.DictRoundTrip | src/models/project_config.py:34-63 | a project whose top entries are directories comes back from `from_dict(to_dict(c))` unchanged but for the comments, which are not stored |
| ProjectConfigModel.NameOnly | src/models/project_config.py:46-63 | a dict with only a name gives the constructor's defaults: `{"default": None}`, empty lists and the default output settings |
| ProjectConfigModel.RootFileNotReloaded | src/models/project_config.py:39-48 | a file at the top of the tree is written but read back as a directory, which has no name, so loading fails |
| ProjectConfigModel.AsWrittenNew | src/models/project_config.py:18-32 | as written, the constructor keeps the root map rule and stores no output settings |
| ProjectConfigModel.AsWrittenSaveFails | src/models/project_config.py:18-43 | as written, even a new project with one default root fails in `to_dict` on the missing `output_settings`; with the settings stored it saves and reloads |
| VectronicMotion.Frequency | src/input_types/vectronic_motion.py:77-79 | the frequency returned is the one the input was built with |
| VectronicMotion.Missing | src/input_types/vectronic_motion.py:72 | the names left are exactly those absent from the columns, and none are left exactly when every name is present |
| VectronicMotion.ValidateFormat | src/input_types/vectronic_motion.py:63-75 | True exactly when every expected column is present; otherwise ValueError listing the missing ones in order |
| VectronicMotion.TimestampText | src/input_types/vectronic_motion.py:42 | the clock text, a dot and the milliseconds padded to at least three digits |
| VectronicMotion.SetColumn | src/input_types/vectronic_motion.py:41-44 | the frame gains or overwrites that column with the values; every other column is kept |
| VectronicMotion.Without | src/input_types/vectronic_motion.py:47 | the columns left are exactly those not dropped |
| VectronicMotion.Drop | src/input_types/vectronic_motion.py:47 | the frame keeps exactly the columns not dropped |
| VectronicMotion.Loaded | src/input_types/vectronic_motion.py:40-47 | the frame gains Timestamp and loses the two time columns, keeping every other column |
| VectronicMotion.LoadNeedsTimeColumns | src/input_types/vectronic_motion.py:48-58 | without both time columns loading fails, naming the missing ones in order |
| VectronicMotion.LoadDataCorrect | src/input_types/vectronic_motion.py:25-61 | loading succeeds exactly when both time columns and the three acceleration columns are present; the frame then gains Timestamp, built row by row from the two time columns, and loses those two |
| VectronicMotion.ExpectedAfterLoad | src/input_types/vectronic_motion.py:40-53 | after the time columns are replaced by Timestamp, the expected columns are present exactly when the acceleration columns were |
| VectronicMotion.LoadedTimestamps | src/input_types/vectronic_motion.py:41-44 | row `i` of Timestamp is built from row `i` of the two time columns |
| VectronicMotion.TimestampTextSplits | src/input_types/vectronic_motion.py:42-43 | the timestamp text splits at its dot into the clock and a digit string whose value is the milliseconds |
| VectronicMotion.NonTimestamp | src/input_types/vectronic_motion.py:83 | keeps exactly the axes not displayed as "Timestamp" |
| VectronicMotion.PlottedAxes | src/input_types/vectronic_motion.py:18-23 | only the first entry of `column_info` is displayed as "Timestamp" |
| VectronicMotion.ExpectedInputNames | src/input_types/vectronic_motion.py:71 | the expected columns are the input names of `column_info`, in order |
| VectronicMotion.AxisInputs | src/input_types/vectronic_motion.py:81-84 | the plotted axes are three, reading the three acceleration columns in order |
| VectronicMotion.AxisNamesXyz | src/input_types/vectronic_motion.py:81-84 | the plotted axes are all displays, named X-axis, Y-axis and Z-axis |
| VectronicMotion.AxesAreXyz | src/input_types/vectronic_motion.py:81-84 | the axes config names X, Y and Z in order, reads the acceleration columns and has no units |
| VectronicMotion.LoadData | src/input_types/vectronic_motion.py:25-61 | every failure is a ValueError; a success needs both time columns and gives the frame with Timestamp built and those two dropped |
| VectronicMotion.AxesConfig | src/input_types/vectronic_motion.py:81-84 | the axes are the entries of `column_info` after the Timestamp one, in order |
| LegacyConfig.NewFile | src/services/project_config.py:30-32 | a new file has the given path and no labels |
| LegacyConfig.ToDict | src/services/project_config.py:11-38 | a directory is written with exactly `name` and `entries`, a file with exactly `path` and `labels` |
| LegacyConfig.FileFromDict | src/services/project_config.py:40-44 | a file is read only from a dict that has both `path` and `labels` |
| LegacyConfig.DirFromDict | src/services/project_config.py:17-27 | a directory is read only from a dict that has both `name` and `entries` |
| LegacyConfig.ChildrenFromDict | src/services/project_config.py:20-26 | the first `n` children convert to `n` nodes |
| LegacyConfig.AppendChild | src/services/project_config.py:20-26 | one pass of the loop adds exactly one node |
| LegacyConfig.ChildFromDict | src/services/project_config.py:21-26 | a child with "behavior" is read as a label, else one with "path" as a file, else as a directory |
| LegacyConfig.DirectoryFromDict | src/services/project_config.py:17-27 | reading the name and then appending child by child gives what the recursive definition gives, or the first failure |
| LegacyConfig.ConvertChildren | src/services/project_config.py:20-26 | the loop over the children converts all of them in order, stopping at the first failure |
| LegacyConfig.ConvertNext | src/services/project_config.py:20-26 | one pass converts the next child and appends it, or gives its failure |
| LegacyConfig.ConvertChild | src/services/project_config.py:21-26 | the loop body converts one child by its keys |
| LegacyConfig.ChildrenFailurePersists | src/services/project_config.py:20-26 | once a child fails, converting more children fails with the same error |
| LegacyConfig.FailureStep | src/services/project_config.py:20-26 | a failure among the first `k` children is also the failure of the first `k + 1` |
| LegacyConfig.ChildrenConvert | src/services/project_config.py:20-26 | where every child converts, the first `k` children give the first `k` nodes |
| LegacyConfig.DictRoundTrip | src/services/project_config.py:11-44 | a node whose labels survive their own round trip is read back from its dict unchanged: directories, files, labels and child order |
| LegacyConfig.RootRoundTrip | src/services/project_config.py:11-27 | the root directory saved by `to_dict` is read back by `Directory.from_dict` unchanged |
| LegacyConfig.LabelsRequired | src/services/project_config.py:40-44 | a file dict without "labels" is rejected with KeyError, where the newer `FileEntry.from_dict` accepts it |
| LegacyConfig.SavedJson | src/services/project_config.py:63-69 | the saved document holds exactly the data root and the root directory's dict |
| LegacyConfig.LoadedState | src/services/project_config.py:56-61 | the tree loaded is a directory |
| LegacyConfig.SaveLoad | src/services/project_config.py:56-69 | loading what was saved restores the data root and the tree |
| LegacyConfig.ProjectConfig.constructor | src/services/project_config.py:47-50 | a new config has the given path, no data root and an empty "Root" directory |
| LegacyConfig.ProjectConfig.InitializeEmptyConfig | src/services/project_config.py:52-54 | sets the data root and empties the tree |
| LegacyConfig.ProjectConfig.Load | src/services/project_config.py:56-61 | a document that parses replaces the data root and the tree; a failure is reported and leaves the tree as it was, and the data root is already replaced when it read as a string or null before the failure |
| LegacyViewer.NewOldLabel | src/viewer.py:11-16 | the label keeps both times and the behaviour, and its duration is end minus start, negative for a reversed pair since nothing checks the order |
| LegacyViewer.Drawn | src/viewer.py:111-150 | one rectangle per label, each drawn from its own label |
| LegacyViewer.Target | src/viewer.py:174-180 | nothing is selected at the one position whose date number is 0.0 (1970-01-01, which python reads as false); otherwise the first rectangle with an edge within the threshold, every earlier one missing, and none exactly when all miss |
| LegacyViewer.OldPan | src/viewer.py:203-215 | each edge is clamped to its own data bound, so both edges lie within the data; after an unbounded zoom the result can be inverted |
| LegacyViewer.OldPanNarrows | src/viewer.py:203-215 | clamping each edge on its own never widens the window, and narrows it exactly when an edge is cut |
| LegacyViewer.OldZoomUnbounded | src/viewer.py:190-201 | zooming out always widens the window by the factor 1.2, with no bound |
| LegacyViewer.Resized | src/viewer.py:267-272 | corrected release: the dragged bound is written back and the duration is recomputed from the new bounds |
| LegacyViewer.OldStaleDuration | src/viewer.py:267-272 | dragging the end of a one-minute label to two minutes leaves its duration at one minute as written, and makes it two minutes corrected |
| LegacyViewer.OldDragReleaseKeepsOrder | src/viewer.py:155-172 | after a drag and release the label still starts before it ends and its duration is their difference |
| LegacyViewer.Released | src/viewer.py:263-276 | only the selected label is rewritten; every other label is kept |
| LegacyViewer.Listing | src/viewer.py:280-286 | one listbox line per label |
| LegacyViewer.Describe | src/viewer.py:18-23 | the line starts with the behaviour and " : ", and the two clock times in it parse back as the times of day of the timestamps, cut to the millisecond |
| LegacyViewer.ListingSorted | src/viewer.py:280-286 | the listing shows every label exactly once, in start order |
| LegacyViewer.OldViewer.constructor | src/viewer.py:53-64 | no labels, no drawing in progress, and the window on the whole data |
| LegacyViewer.OldViewer.OnScroll | src/viewer.py:189-220 | with control held, an unclamped zoom around the pointer, failing outside the plot; otherwise a pan clamped edge by edge; labels and the editing state are kept |
| LegacyViewer.OldViewer.HitTest | src/viewer.py:174-180 | the loop stops at the first rectangle with an edge within 0.01 day of the pointer |
| LegacyViewer.OldViewer.OnMouseMove | src/viewer.py:155-183 | during a drag the selected rectangle's edge follows the pointer; otherwise the selection becomes the rectangle under the pointer, or none |
| LegacyViewer.OldViewer.OnClick | src/viewer.py:222-261 | a left click near an edge starts dragging it; otherwise the first click remembers the position and the second adds a label when a behaviour is chosen and ends the drawing either way; a right click cancels; the window is kept |
| LegacyViewer.OldViewer.OnMouseRelease | src/viewer.py:263-278 | after a drag the selected label takes its rectangle's dragged edge, dragging ends and the rectangles are redrawn; otherwise nothing changes |
| ViewerModel.LabelsOf | src/gui_components/viewer.py:198-240 | the label list the viewer iterates holds, position by position, the labels of its slots |
| ViewerModel.Drawn | src/gui_components/viewer.py:198-240 | `plot_data` draws one rectangle per label, in list order, from the label's start to its end on the reference day |
| ViewerModel.SortDistinct | src/gui_components/viewer.py:496 | sorting the labels by start keeps every label object exactly once: the same set of handles, still pairwise distinct |
| ViewerModel.AppendFresh | src/gui_components/viewer.py:454 | appending a new label object keeps the handles distinct and all below the next handle |
| ViewerModel.RemoveFresh | src/gui_components/viewer.py:566 | `list.remove` at the found position keeps the other objects distinct and drops exactly the removed handle |
| ViewerModel.IndexOfHandle | src/gui_components/viewer.py:566 | finds the first position holding the label object, and none exactly when no position holds it |
| ViewerModel.RectIndex | src/gui_components/viewer.py:319 | the rectangle stored for a label is one whose handle is the label's, and none exactly when no rectangle belongs to it |
| ViewerModel.FirstHit | src/gui_components/viewer.py:341-351 | the first rectangle whose edge (or, when allowed, inside) is within the threshold of the pointer; every earlier rectangle misses, and none when all miss |
| ViewerModel.EdgeHit | src/gui_components/viewer.py:427-438 | the start edge is hit exactly when it is within the threshold; an end-edge hit is within the threshold of the end; an inside hit only when allowed and strictly inside; any hit lies within the threshold of the rectangle |
| ViewerModel.Target | src/gui_components/viewer.py:341-351 | nothing is selected at the one position whose date number is 0.0 (1970-01-01, which python reads as false); otherwise the first rectangle hit, every earlier one missing, and none exactly when all miss |
| ViewerModel.HitAtReferenceMidnight | src/gui_components/viewer.py:341-351 | the reference midnight 1900-01-01 00:00 is not a false position: a label drawn from 00:00 is hit on its start edge there |
| ViewerModel.Dragged | src/gui_components/viewer.py:318-333 | the dragged edge follows the pointer only while start stays before end, the other edge never moves, and a moved rectangle keeps a positive width |
| ViewerModel.Resized | src/gui_components/viewer.py:572-581 | on release the dragged bound becomes the time of day of the rectangle's edge, the other bound and the behaviour are kept, and the duration is end minus start |
| ViewerModel.StaleDuration | src/gui_components/viewer.py:576-581 | releasing a start dragged from 10:00 to 09:58 on a 10:00-10:05 label leaves, as written, a five-minute duration on a seven-minute label; the corrected release gives a valid label |
| ViewerModel.DragReleaseValid | src/gui_components/viewer.py:572-581 | any drag within the reference day, once released, leaves a valid label: start before end and the duration their difference |
| ViewerModel.Released | src/gui_components/viewer.py:572-581 | only the selected label object is resized; every other slot and the order are unchanged |
| ViewerModel.Relabelled | src/gui_components/viewer.py:548-562 | the chosen behaviour replaces the behaviour of that label object only; times, durations and order are unchanged |
| ViewerModel.Bounds | src/gui_components/viewer.py:262-281 | the y limits are the least column minimum and the greatest column maximum, both taken from some column |
| ViewerModel.YRange | src/gui_components/viewer.py:262-281 | -1..1 when no column is displayed, the columns' bounds otherwise |
| ViewerModel.DataName | src/gui_components/viewer.py:176-180 | a name exactly when the data path is set and not empty, and the name contains no '/' |
| ViewerModel.DropExtension | src/gui_components/viewer.py:179 | removing ".csv" from a dot-free stem followed by ".csv" gives back the stem |
| ViewerModel.ReplaceKeeps | src/gui_components/viewer.py:179 | `replace` introduces no character that is neither in the string nor in the replacement |
| ViewerModel.DataNameOf | src/gui_components/viewer.py:176-180 | the data path `dir/stem.csv` gives back exactly `stem` |
| ViewerModel.AdjustTimes | src/gui_components/viewer.py:498-525 | the loop over the sorted labels computes the overlap adjustment of the new label's times, including its overflow error |
| ViewerModel.SecondClickAdds | src/gui_components/viewer.py:444-462 | a second click keeps the labels it had (sorted by start once the step time is known) and adds one exactly when a behaviour was chosen and nothing failed; the new label is valid, carries the chosen behaviour and a fresh handle, and overlaps none of the labels it had |
| ViewerModel.Viewer.constructor | src/gui_components/viewer.py:150-174 | after the first load the viewer holds the file's labels in order, with no pending click, selection or drag, the labels drawn and the y limits set |
| ViewerModel.Viewer.SetYLimits | src/gui_components/viewer.py:262-281 | the loop sets the y limits to the columns' range and changes nothing else |
| ViewerModel.Viewer.PlotData | src/gui_components/viewer.py:198-260 | redrawing rebuilds one rectangle per label, resets the y limits and restores the kept x limits, or autoscales without them |
| ViewerModel.Viewer.Pan | src/gui_components/viewer.py:81-117 | the window moves as the pan rule says and is kept for later redraws; labels and editing state are unchanged |
| ViewerModel.Viewer.Zoom | src/gui_components/viewer.py:365-412 | the window and the status are those of the zoom rule around the pointer, including the inverted window with no data extent, and the kept limits are not updated |
| ViewerModel.Viewer.KeyZoom | src/gui_components/viewer.py:59-70 | the zoom keys give the window and status of the zoom rule around the middle of the current window |
| ViewerModel.Viewer.OnScroll | src/gui_components/viewer.py:119-135 | outside the plot or at the false position nothing moves; with control held the wheel sets the window of the zoom rule around the pointer, otherwise down pans left and up pans right and the window is kept |
| ViewerModel.Viewer.ZoomInOnAllLabels | src/gui_components/viewer.py:621-663 | the window fits all labels and is kept; without labels nothing changes |
| ViewerModel.Viewer.ZoomOutToShowAll | src/gui_components/viewer.py:665-693 | the window becomes the data range with a 10 % margin and is kept |
| ViewerModel.Viewer.HitTest | src/gui_components/viewer.py:341-351 | the loop over the rectangles returns the first hit |
| ViewerModel.Viewer.OnMouseMove | src/gui_components/viewer.py:294-355 | while dragging, only the selected rectangle's edge follows the pointer (a deleted selection raises `KeyError`); otherwise the selection becomes the first rectangle with an edge near the pointer, or none outside the plot or at the false position |
| ViewerModel.Viewer.ValidateUserLabelTimes | src/gui_components/viewer.py:483-532 | an unknown step time fails before the labels are touched; otherwise the labels end sorted by start and the result is the corrected validation (`Overlap.ValidateApart`) of the two positions, so a returned interval overlaps no label |
| ViewerModel.Viewer.FinishLabel | src/gui_components/viewer.py:444-462 | the labels, next handle and error are those of the second-click outcome; a save happens exactly when a label was added, and the pending start clears only on success |
| ViewerModel.Viewer.OnClick | src/gui_components/viewer.py:414-481 | outside the plot nothing changes; a left click on an edge starts a drag and inside a rectangle selects it; otherwise the first click remembers the position and the second finishes the label, and on success the plot is redrawn (every rectangle, the columns' y limits) with the x window kept as at the click and the selection and drag state untouched; the window is kept except for a right click on a label |
| ViewerModel.Viewer.PlaceClick | src/gui_components/viewer.py:444-481 | the first click records the start; the second follows the second-click outcome and, on success, clears the start; on success the plot is redrawn (every rectangle, the columns' y limits) and the x window stays as at the click; the selection and drag state are never touched |
| ViewerModel.Viewer.OnMouseRelease | src/gui_components/viewer.py:572-587 | after a drag the selected label takes the dragged edge as its new bound, dragging stops and one save follows; the redraw shows every label's rectangle, resets the y limits to the data's and shows the kept x limits (unchanged) or else the autoscaled window; a deleted selection raises `KeyError` and changes nothing; without a drag nothing changes |
| ViewerModel.Viewer.DeleteLabel | src/gui_components/viewer.py:564-570 | the label object is removed from its position, its handle is gone, the others keep their order, and one save follows; the redraw resets the y limits and shows the kept x limits (unchanged) or else the autoscaled window; a label not in the list raises `ValueError` and changes nothing |
| ViewerModel.Viewer.OnDeleteKey | src/gui_components/viewer.py:136-139 | the Delete key removes the selected label with all that `delete_label` promises (handle gone, others in order, one save, the same redraw); a selection no longer in the list raises `ValueError` and changes nothing; with no selection nothing happens |
| ViewerModel.Viewer.ChangeLabelBehavior | src/gui_components/viewer.py:548-562 | a non-empty choice relabels only that label object, saves, and redraws with reset y limits and the kept x limits (unchanged) or else the autoscaled window; no choice changes nothing |
| ViewerModel.Viewer.GetDataPath | src/gui_components/viewer.py:176-180 | the data file's name without directory and ".csv", or none when no file is loaded |

## Left out

- File and network I/O: opening, reading and writing project files, CSV files and reports. `load_project`, `save_project`, `create_project`, `_save_project_config` and `from_file` become a counter of saves or operations on values.
- Tk dialogs, status bar, listbox and cursor widgets, and matplotlib rendering. Only what they compute is modelled: the rectangles, the y limits and the view window. The cursor report on hover is not modelled.
- Context-menu geometry (`contains_point` on a right click): whether a right click hits a label is a parameter of `OnClick`.
- The behaviour prompt, the user name (`os.getlogin`/`getpass`), `os.path.exists`, the uuid draws of `_generate_unique_id`, the autoscaled window and the step-time lookup inside the viewer are parameters.
- Floating point: view limits are exact reals and pointer positions integers, so rounding in matplotlib's date numbers is not modelled. The minus-infinity share of a zoom with no data extent is a status of its own rather than a float. Number formatting (`:.2f`, the percentage in the zoom status) is left out.
- `strptime` is modelled for the fixed format `"%H:%M:%S.%f"` over ASCII digits only.
- JSON values whose type the code never checks but then uses as a string (names, ids, paths, behaviours) are required to be strings. A value of another type is rejected, where Python would fail later or carry it along. For a label, a behaviour that is not a string is rejected with TypeError only after the times have been read, parsed and validated, so every other error comes first as in Python.
- `data_root_directory` given as a single path string (an older file layout) is not modelled; the model reads only a dict of user to path.
- Object identity and aliasing: Python mutates label and entry objects that several lists share. The model rebuilds values, and a handle stands for a viewer label's identity.
- Labels holding a mix of `datetime` and `time` values after a drag: the model stores the time of day. Python would later fail to compare the two types when sorting. Saving such a label writes the dragged bound with `isoformat()` as a datetime string that carries a date, which `from_dict`'s `strptime(..., "%H:%M:%S.%f")` rejects, so the label does not load back; the model saves and reloads the time of day instead.
- `user_verified` is never set or written by the code and is not modelled.
- `to_datetime` parsing of the CSV columns and the pandas frame operations are not modelled beyond which columns exist and the timestamp text.
- The y limits are given per displayed column as a (min, max) pair rather than computed from the data.
- `ProjectService.get_input_settings` reads an attribute the service does not have; it is not modelled.
- `get_output_settings`, `update_output_settings`, `get_file_entry`, `get_project_config`, `get_project_name`, `get_project_root_dir` and `get_entries` only read or assign one field and log a warning; they are not modelled.
- ViewerModel.Viewer.constructor: models the first load only. A later `load_file_entry` on the same viewer keeps the pending click, selection, drag and kept x limits, and that reload is not modelled.
- Viewer events before a file is loaded (no data, no axes) are not modelled: the viewer is constructed by the load.
- `clear_plot`, `set_active_axes`, `on_mouse_leave`, `update_label_list` of the current viewer, and the rest of `load_file_entry` (reading the CSV) are not modelled.
- Backtrack analysis: `os.walk`, the process pool, report writing, sub-microsecond timestamps, the check for the 'UTC DateTime' column and the wording of the incomplete-days report are not modelled.
- The legacy viewer's listbox widget and its `ylim` unpacking are not modelled.
- The legacy configuration's data root is a string; other JSON types are not modelled.
- Nearest: labels mixing `time` and `datetime` values are not modelled; all times are on one scale.
- Overlap.ValidateOrdered: start before end is proved only when there is a label, or both pointer positions fall on one day. Positions on two days with no labels can come out reversed (`Overlap.ValidateAcrossMidnight`), and the label constructor then rejects them.
- ProjectServiceModel.DeleteFile: its own ensures covers only the cases that change nothing; the full effect is stated by `ProjectServiceModel.DeleteFileIs` and `ProjectServiceModel.DeleteRemovesFile`.
- `main.py` threading and application start-up are not modelled.

## Findings

| source | as written | input that shows it | evidently intended | confidence | as-written member | corrected member |
|---|---|---|---|---|---|---|
| src/models/project_config.py:42 | the constructor accepts `output_settings` but never stores it, so `to_dict` raises `AttributeError` | any project, e.g. a name and the default data root | the settings are stored and written out | not executed | ProjectConfigModel.AsWrittenSaveFails | ProjectConfigModel.DictRoundTrip |
| src/gui_components/viewer.py:576-581 | on release only the dragged bound is assigned; the stored duration stays the old one | a 10:00-10:05 label whose start is dragged to 09:58 | the duration is recomputed as end minus start | not executed | ViewerModel.StaleDuration | ViewerModel.DragReleaseValid |
| src/services/project_service.py:352 | the id search reads `entry.id`, but a loaded `FileEntry` only has `file_id` | a tree with one directory holding one file `a.csv` with id "123" | the search reads the file's stored id | not executed | ProjectServiceModel.AsWrittenSearchCounterexample | ProjectServiceModel.AppendFindable |
| src/viewer.py:267-272 | on release the legacy viewer assigns the dragged bound but keeps the old duration | a label from 0 to 1 minute whose end is dragged to 2 minutes | the duration is recomputed | not executed | LegacyViewer.OldStaleDuration | LegacyViewer.OldDragReleaseKeepsOrder |
| src/models/label.py:59-60 | `isoformat()` drops the fraction on a whole second, and `from_dict` then rejects the string | a label from 10:00:00 to 10:05:00 | all six fraction digits are written, so the label loads back | not executed | Labels.WholeSecondLabelLost | Labels.DictRoundTrip |
| src/gui_components/viewer.py:486-521 | an end point is moved only when it lies inside a label, and the pair is then swapped, so an interval inside a label comes back around it, against the docstring's promise of no overlap | a label 10:00-10:05 and a proposed 10:01-10:02 with a positive buffer | the returned interval overlaps no existing label | not executed | Overlap.InsideLabelSwallowed | Overlap.ValidateApart |
| src/services/project_service.py:206 | `add_file` stamps the generated id on the `id` attribute only, while `to_dict` writes `file_id` (file_entry.py:13-18), so the saved file keeps the id it was built with | `add_file` of `FileEntry("a.csv", "x")` under a directory, with a generated id other than "x" | the generated id becomes the stored id | not executed | ProjectServiceModel.AsWrittenStampLost | ProjectServiceModel.ProjectService.AddFile |
