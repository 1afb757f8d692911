/** A user's window layout, kept between sessions (`models/user_app_config.py`). Every
    field is stored and written back verbatim. */
module UserAppConfigModel {
  import opened Wrappers
  import Json

  datatype UserAppConfig = UserAppConfig(
    lastOpenedProject: Json.Value,
    lastOpenedFile: Json.Value,
    windowGeometry: Json.Value,
    projectBrowserWidth: Json.Value,
    viewerWidth: Json.Value,
    infoWidth: Json.Value,
    zoomLevel: Json.Value,
    axesDisplay: Json.Value,
    windowState: Json.Value,
    splitterPositions: Json.Value)

  const DefaultAxes := Json.Obj(map["x" := Json.Bool(true), "y" := Json.Bool(true), "z" := Json.Bool(true)])

  /** A constructor argument: given, or left at its default. */
  function Arg(given: Option<Json.Value>, default: Json.Value): (v: Json.Value)
    ensures given.Some? ==> v == given.value
    ensures given.None? ==> v == default
  {
    if given.Some? then given.value else default
  }

  /** `UserAppConfig(...)`: geometry "1200x800", widths 200/800/200 and None elsewhere by
      default; a falsy `axes_display` becomes all three axes shown. */
  function New(lastOpenedProject: Option<Json.Value>, lastOpenedFile: Option<Json.Value>,
               windowGeometry: Option<Json.Value>, projectBrowserWidth: Option<Json.Value>,
               viewerWidth: Option<Json.Value>, infoWidth: Option<Json.Value>, zoomLevel: Option<Json.Value>,
               axesDisplay: Option<Json.Value>, windowState: Option<Json.Value>,
               splitterPositions: Option<Json.Value>): (c: UserAppConfig)
    ensures Json.Truthy(c.axesDisplay)
    ensures axesDisplay.Some? && Json.Truthy(axesDisplay.value) ==> c.axesDisplay == axesDisplay.value
    ensures !(axesDisplay.Some? && Json.Truthy(axesDisplay.value)) ==> c.axesDisplay == DefaultAxes
  {
    assert "x" in DefaultAxes.fields;
    var axes := Arg(axesDisplay, Json.Null);
    UserAppConfig(
      Arg(lastOpenedProject, Json.Null), Arg(lastOpenedFile, Json.Null), Arg(windowGeometry, Json.Str("1200x800")),
      Arg(projectBrowserWidth, Json.Int(200)), Arg(viewerWidth, Json.Int(800)), Arg(infoWidth, Json.Int(200)),
      Arg(zoomLevel, Json.Null), if Json.Truthy(axes) then axes else DefaultAxes,
      Arg(windowState, Json.Null), Arg(splitterPositions, Json.Null))
  }

  /** The configuration a fresh user starts with. */
  const Default := New(None, None, None, None, None, None, None, None, None, None)

  const Keys: set<string> := {"last_opened_project", "last_opened_file", "window_geometry",
    "project_browser_width", "viewer_width", "info_width", "zoom_level", "axes_display", "window_state",
    "splitter_positions"}

  /** `to_dict`: one key per field, and no other. */
  function ToDict(c: UserAppConfig): (r: Json.Value)
    ensures r.Obj? && r.fields.Keys == Keys
  {
    Json.Obj(map[
      "last_opened_project" := c.lastOpenedProject, "last_opened_file" := c.lastOpenedFile,
      "window_geometry" := c.windowGeometry, "project_browser_width" := c.projectBrowserWidth,
      "viewer_width" := c.viewerWidth, "info_width" := c.infoWidth, "zoom_level" := c.zoomLevel,
      "axes_display" := c.axesDisplay, "window_state" := c.windowState,
      "splitter_positions" := c.splitterPositions])
  }

  /** `from_dict`: every key is passed to the constructor, a missing one as None, so only
      `axes_display` falls back to a default. */
  function FromDict(data: Json.Value): (r: Result<UserAppConfig>)
    ensures r.Ok? <==> data.Obj?
    ensures r.Ok? ==> Json.Truthy(r.value.axesDisplay)
    ensures r.Ok? ==> r.value.windowGeometry == Json.Lookup(data.fields, "window_geometry", Json.Null) &&
                      r.value.projectBrowserWidth == Json.Lookup(data.fields, "project_browser_width", Json.Null) &&
                      r.value.viewerWidth == Json.Lookup(data.fields, "viewer_width", Json.Null) &&
                      r.value.infoWidth == Json.Lookup(data.fields, "info_width", Json.Null)
  {
    if !data.Obj? then Err(AttributeError("get"))
    else
      var f := data.fields;
      Ok(New(Some(Json.Lookup(f, "last_opened_project", Json.Null)), Some(Json.Lookup(f, "last_opened_file", Json.Null)),
             Some(Json.Lookup(f, "window_geometry", Json.Null)), Some(Json.Lookup(f, "project_browser_width", Json.Null)),
             Some(Json.Lookup(f, "viewer_width", Json.Null)), Some(Json.Lookup(f, "info_width", Json.Null)),
             Some(Json.Lookup(f, "zoom_level", Json.Null)), Some(Json.Lookup(f, "axes_display", DefaultAxes)),
             Some(Json.Lookup(f, "window_state", Json.Null)), Some(Json.Lookup(f, "splitter_positions", Json.Null))))
  }

  /** The defaults the constructor documents. */
  lemma Defaults()
    ensures Default.windowGeometry == Json.Str("1200x800")
    ensures Default.projectBrowserWidth == Json.Int(200) && Default.viewerWidth == Json.Int(800)
    ensures Default.infoWidth == Json.Int(200) && Default.axesDisplay == DefaultAxes
    ensures Default.lastOpenedProject == Json.Null && Default.zoomLevel == Json.Null
  {
  }

  /** `to_dict` writes exactly the ten keys `from_dict` reads, and `from_dict` reads every
      field back, except that a falsy `axes_display` comes back as the default. */
  lemma DictRoundTrip(c: UserAppConfig)
    ensures ToDict(c).fields.Keys == Keys
    ensures FromDict(ToDict(c)) == Ok(c.(axesDisplay := if Json.Truthy(c.axesDisplay) then c.axesDisplay else DefaultAxes))
  {
    var d := ToDict(c);
    assert Json.Lookup(d.fields, "last_opened_project", Json.Null) == c.lastOpenedProject;
    assert Json.Lookup(d.fields, "last_opened_file", Json.Null) == c.lastOpenedFile;
    assert Json.Lookup(d.fields, "window_geometry", Json.Null) == c.windowGeometry;
    assert Json.Lookup(d.fields, "project_browser_width", Json.Null) == c.projectBrowserWidth;
    assert Json.Lookup(d.fields, "viewer_width", Json.Null) == c.viewerWidth;
    assert Json.Lookup(d.fields, "info_width", Json.Null) == c.infoWidth;
    assert Json.Lookup(d.fields, "zoom_level", Json.Null) == c.zoomLevel;
    assert Json.Lookup(d.fields, "axes_display", DefaultAxes) == c.axesDisplay;
    assert Json.Lookup(d.fields, "window_state", Json.Null) == c.windowState;
    assert Json.Lookup(d.fields, "splitter_positions", Json.Null) == c.splitterPositions;
  }

  /** A configuration the constructor built survives the round trip unchanged. */
  lemma ConstructedRoundTrip(c: UserAppConfig)
    requires Json.Truthy(c.axesDisplay)
    ensures FromDict(ToDict(c)) == Ok(c)
  {
    DictRoundTrip(c);
  }

  /** Unlike the constructor, an empty dict leaves geometry and widths as None. */
  lemma EmptyDict()
    ensures FromDict(Json.Obj(map[])).Ok?
    ensures FromDict(Json.Obj(map[])).value.windowGeometry == Json.Null
    ensures FromDict(Json.Obj(map[])).value.viewerWidth == Json.Null
    ensures FromDict(Json.Obj(map[])).value.axesDisplay == DefaultAxes
  {
  }
}
