/** Axis descriptions of an input type (`models/axes_config.py`). */
module AxesConfigModel {
  import opened Wrappers

  /** An `AxisDisplay` (how an axis is drawn) or an `AxisInfo` (what a column holds). */
  datatype Axis =
    | Display(displayName: string, color: string, alpha: real, inputName: string)
    | Info(name: string, dataType: string, unit: string, index: int)

  /** `AxesConfig(axis_displays)` keeps the list as given. */
  datatype AxesConfig = AxesConfig(axisDisplays: seq<Axis>)

  /** `get_axis_names()`: every axis's `display_name`; an `AxisInfo` has none. */
  function AxisNames(c: AxesConfig): (r: Result<seq<string>>)
    ensures r.Ok? <==> forall i :: 0 <= i < |c.axisDisplays| ==> c.axisDisplays[i].Display?
    ensures r.Ok? ==> |r.value| == |c.axisDisplays|
    ensures r.Ok? ==> forall i :: 0 <= i < |r.value| ==> r.value[i] == c.axisDisplays[i].displayName
    decreases |c.axisDisplays|
  {
    var axes := c.axisDisplays;
    if axes == [] then Ok([])
    else if axes[0].Info? then Err(AttributeError("display_name"))
    else
      var rest :- AxisNames(AxesConfig(axes[1..]));
      Ok([axes[0].displayName] + rest)
  }

  /** `get_axis_units()`: the units of the axes that have one, in order. */
  function AxisUnits(c: AxesConfig): (r: seq<string>)
    ensures |r| <= |c.axisDisplays|
    ensures forall u :: u in r <==> exists i :: 0 <= i < |c.axisDisplays| && c.axisDisplays[i].Info? && c.axisDisplays[i].unit == u
    decreases |c.axisDisplays|
  {
    var axes := c.axisDisplays;
    if axes == [] then []
    else
      var rest := AxisUnits(AxesConfig(axes[1..]));
      assert forall i :: 1 <= i < |axes| ==> axes[i] == axes[1..][i - 1];
      (if axes[0].Info? then [axes[0].unit] else []) + rest
  }

  /** Units come only from `AxisInfo` entries: a list of `AxisDisplay` has none. */
  lemma {:induction false} DisplaysHaveNoUnits(c: AxesConfig)
    requires forall i :: 0 <= i < |c.axisDisplays| ==> c.axisDisplays[i].Display?
    ensures AxisUnits(c) == []
    decreases |c.axisDisplays|
  {
    if c.axisDisplays != [] {
      DisplaysHaveNoUnits(AxesConfig(c.axisDisplays[1..]));
    }
  }

  /** Each `AxisInfo` contributes its unit, in list order. */
  lemma {:induction false} UnitsOfConcat(a: seq<Axis>, b: seq<Axis>)
    ensures AxisUnits(AxesConfig(a + b)) == AxisUnits(AxesConfig(a)) + AxisUnits(AxesConfig(b))
    decreases |a|
  {
    if a != [] {
      assert (a + b)[1..] == a[1..] + b;
      UnitsOfConcat(a[1..], b);
    } else {
      assert a + b == b;
    }
  }
}
