/** A project (`models/project_config.py`): its name, the data root of every user, the
    directory tree and the display and output settings. */
module ProjectConfigModel {
  import opened Wrappers
  import Json
  import Entries
  import DataDisplays
  import LabelDisplays
  import OutputSettingsModel

  type Roots = map<string, Option<string>>

  /** `{"default": None}`, the root map a project gets when it is given none. */
  const DefaultRoots: Roots := map["default" := None]

  /** Everything a project object holds. */
  datatype Config = Config(
    projName: string,
    roots: Roots,
    entries: seq<Entries.Entry>,
    dataDisplay: seq<DataDisplays.DataDisplay>,
    labelDisplay: seq<LabelDisplays.LabelDisplay>,
    outputSettings: OutputSettingsModel.OutputSettings)

  /** `data_root_directory or {"default": None}`. */
  function RootsOr(roots: Roots): (r: Roots)
    ensures r != map[]
    ensures roots != map[] ==> r == roots
  {
    assert "default" in DefaultRoots;
    if roots == map[] then DefaultRoots else roots
  }

  /** `get_user_path`: the user's path, else the "default" path, else None. */
  function UserPath(roots: Roots, user: string): (p: Option<string>)
    ensures user in roots ==> p == roots[user]
    ensures user !in roots && "default" in roots ==> p == roots["default"]
    ensures user !in roots && "default" !in roots ==> p == None
  {
    if user in roots then roots[user] else if "default" in roots then roots["default"] else None
  }

  // ---------------------------------------------------------------------------------------
  // to_dict

  function RootsToJson(roots: Roots): Json.Value
  {
    Json.Obj(map u | u in roots :: Json.OptStr(roots[u]))
  }

  /** The tree without its comments, list by list. */
  function UncommentedAll(es: seq<Entries.Entry>): (r: seq<Entries.Entry>)
    ensures |r| == |es| && forall i :: 0 <= i < |es| ==> r[i] == Entries.Uncommented(es[i])
  {
    seq(|es|, i requires 0 <= i < |es| => Entries.Uncommented(es[i]))
  }

  function EntriesToJson(es: seq<Entries.Entry>): seq<Json.Value>
  {
    seq(|es|, i requires 0 <= i < |es| => Entries.ToDict(es[i]))
  }

  function DataDisplaysToJson(ds: seq<DataDisplays.DataDisplay>): seq<Json.Value>
  {
    seq(|ds|, i requires 0 <= i < |ds| => DataDisplays.ToDict(ds[i]))
  }

  function LabelDisplaysToJson(ds: seq<LabelDisplays.LabelDisplay>): seq<Json.Value>
  {
    seq(|ds|, i requires 0 <= i < |ds| => LabelDisplays.ToDict(ds[i]))
  }

  const Keys: set<string> :=
    {"proj_name", "data_root_directory", "entries", "data_display", "label_display", "output_settings"}

  /** `to_dict` of a project that keeps its output settings: one key per field, the name
      as a string and every list as a list of the same length. */
  function ToDict(c: Config): (r: Json.Value)
    ensures r.Obj? && r.fields.Keys == Keys
    ensures r.fields["proj_name"] == Json.Str(c.projName)
    ensures r.fields["entries"].Arr? && |r.fields["entries"].items| == |c.entries|
    ensures r.fields["data_display"].Arr? && |r.fields["data_display"].items| == |c.dataDisplay|
    ensures r.fields["label_display"].Arr? && |r.fields["label_display"].items| == |c.labelDisplay|
  {
    Json.Obj(map[
      "proj_name" := Json.Str(c.projName),
      "data_root_directory" := RootsToJson(c.roots),
      "entries" := Json.Arr(EntriesToJson(c.entries)),
      "data_display" := Json.Arr(DataDisplaysToJson(c.dataDisplay)),
      "label_display" := Json.Arr(LabelDisplaysToJson(c.labelDisplay)),
      "output_settings" := OutputSettingsModel.ToDict(c.outputSettings)])
  }

  // ---------------------------------------------------------------------------------------
  // from_dict

  /** A root map whose paths are strings or None. */
  function RootsFromJson(v: Json.Value): (r: Result<Roots>)
    ensures r.Ok? ==> v.Obj? && r.value.Keys == v.fields.Keys
  {
    if v.Obj? && forall u :: u in v.fields ==> v.fields[u].Str? || v.fields[u].Null? then
      Ok(map u | u in v.fields :: if v.fields[u].Str? then Some(v.fields[u].s) else None)
    else Err(TypeError)
  }

  /** `[DirectoryEntry.from_dict(e) for e in items]`. */
  function DirsFromJson(items: seq<Json.Value>): (r: Result<seq<Entries.Entry>>)
    ensures r.Ok? ==> |r.value| == |items|
    ensures r.Ok? ==> forall i :: 0 <= i < |items| ==> Entries.DirFromDict(items[i]) == Ok(r.value[i])
  {
    if items == [] then Ok([])
    else
      var first :- Entries.DirFromDict(items[0]);
      var rest :- DirsFromJson(items[1..]);
      Ok([first] + rest)
  }

  function DataDisplaysFromJson(items: seq<Json.Value>): (r: Result<seq<DataDisplays.DataDisplay>>)
    ensures r.Ok? ==> |r.value| == |items|
  {
    if items == [] then Ok([])
    else
      var first :- DataDisplays.FromDict(items[0]);
      var rest :- DataDisplaysFromJson(items[1..]);
      Ok([first] + rest)
  }

  function LabelDisplaysFromJson(items: seq<Json.Value>): (r: Result<seq<LabelDisplays.LabelDisplay>>)
    ensures r.Ok? ==> |r.value| == |items|
  {
    if items == [] then Ok([])
    else
      var first :- LabelDisplays.FromDict(items[0]);
      var rest :- LabelDisplaysFromJson(items[1..]);
      Ok([first] + rest)
  }

  /** `ProjectConfig.from_dict`: the lists, the output settings and the root map are read in
      that order and `proj_name` last; the constructor then applies its defaults. */
  function FromDict(data: Json.Value): (r: Result<Config>)
    ensures r.Ok? ==> r.value.roots != map[]
    ensures r.Ok? ==> forall i :: 0 <= i < |r.value.entries| ==> r.value.entries[i].Dir?
  {
    match data
    case Obj(fields) => FromFields(fields)
    case _ => Err(AttributeError("get"))
  }

  function FromFields(fields: map<string, Json.Value>): (r: Result<Config>)
    ensures r.Ok? ==> r.value.roots != map[]
    ensures r.Ok? ==> forall i :: 0 <= i < |r.value.entries| ==> r.value.entries[i].Dir?
  {
    var entryItems :- Json.Iterate(Json.Lookup(fields, "entries", Json.Arr([])), AttributeError("get"));
    var entries :- DirsFromJson(entryItems);
    var dataItems :- Json.Iterate(Json.Lookup(fields, "data_display", Json.Arr([])), TypeError);
    var dataDisplay :- DataDisplaysFromJson(dataItems);
    var labelItems :- Json.Iterate(Json.Lookup(fields, "label_display", Json.Arr([])), TypeError);
    var labelDisplay :- LabelDisplaysFromJson(labelItems);
    var outputSettings :- OutputSettingsModel.FromDict(Json.Lookup(fields, "output_settings", Json.Obj(map[])));
    var rootsV := Json.Lookup(fields, "data_root_directory", RootsToJson(DefaultRoots));
    var roots :- if Json.Truthy(rootsV) then RootsFromJson(rootsV) else Ok(DefaultRoots);
    var nameV :- Json.Get(Json.Obj(fields), "proj_name");
    var name :- Json.AsStr(nameV);
    Ok(Config(name, RootsOr(roots), entries, dataDisplay, labelDisplay, outputSettings))
  }

  // ---------------------------------------------------------------------------------------
  // The project object

  class ProjectConfig {
    var projName: string
    var roots: Roots
    var entries: seq<Entries.Entry>
    var dataDisplay: seq<DataDisplays.DataDisplay>
    var labelDisplay: seq<LabelDisplays.LabelDisplay>
    var outputSettings: OutputSettingsModel.OutputSettings

    function State(): Config
      reads this
    {
      Config(projName, roots, entries, dataDisplay, labelDisplay, outputSettings)
    }

    /** `ProjectConfig(...)`: an empty root map becomes `{"default": None}`; missing lists
        are empty and missing output settings are the defaults. */
    constructor (projName: string, roots: Roots, entries: seq<Entries.Entry>, dataDisplay: seq<DataDisplays.DataDisplay>,
                 labelDisplay: seq<LabelDisplays.LabelDisplay>, outputSettings: Option<OutputSettingsModel.OutputSettings>)
      ensures State() == Config(projName, RootsOr(roots), entries, dataDisplay, labelDisplay,
                                if outputSettings.Some? then outputSettings.value else OutputSettingsModel.Default)
    {
      this.projName := projName;
      this.roots := RootsOr(roots);
      this.entries := entries;
      this.dataDisplay := dataDisplay;
      this.labelDisplay := labelDisplay;
      this.outputSettings := if outputSettings.Some? then outputSettings.value else OutputSettingsModel.Default;
    }

    /** `from_dict` builds a new project from a dict. */
    static method Load(data: Json.Value) returns (r: Result<ProjectConfig>)
      ensures r.Ok? <==> FromDict(data).Ok?
      ensures r.Ok? ==> fresh(r.value) && r.value.State() == FromDict(data).value
      ensures r.Err? ==> r.error == FromDict(data).error
    {
      var parsed := FromDict(data);
      if parsed.Err? {
        return Err(parsed.error);
      }
      var c := parsed.value;
      var p := new ProjectConfig(c.projName, c.roots, c.entries, c.dataDisplay, c.labelDisplay, Some(c.outputSettings));
      return Ok(p);
    }

    /** `add_user_path`: sets or overwrites one user's path. */
    method AddUserPath(user: string, path: Option<string>)
      modifies this
      ensures roots == old(roots)[user := path]
      ensures State() == old(State()).(roots := roots)
    {
      roots := roots[user := path];
    }

    /** `remove_user_path`: drops the user's entry if there is one. */
    method RemoveUserPath(user: string)
      modifies this
      ensures roots == old(roots) - {user}
      ensures user !in old(roots) ==> roots == old(roots)
      ensures State() == old(State()).(roots := roots)
    {
      if user in roots {
        roots := roots - {user};
      }
    }

    function GetUserPath(user: string): Option<string>
      reads this
    {
      UserPath(roots, user)
    }

    function Dict(): Json.Value
      reads this
    {
      ToDict(State())
    }
  }

  // ---------------------------------------------------------------------------------------
  // Properties

  /** Adding a user's path and then reading it gives that path; every other user's lookup is
      unchanged unless the added user is "default". */
  lemma AddThenGet(roots: Roots, user: string, path: Option<string>, other: string)
    ensures UserPath(roots[user := path], user) == path
    ensures other != user && user != "default" ==> UserPath(roots[user := path], other) == UserPath(roots, other)
  {
  }

  /** After removing a user, lookups for that user fall back to the default path. */
  lemma RemoveThenGet(roots: Roots, user: string)
    requires user != "default"
    ensures UserPath(roots - {user}, user) == if "default" in roots then roots["default"] else None
  {
  }

  lemma RootsRoundTrip(roots: Roots)
    requires roots != map[]
    ensures Json.Truthy(RootsToJson(roots))
    ensures RootsFromJson(RootsToJson(roots)) == Ok(roots)
  {
    var u :| u in roots;
    assert u in RootsToJson(roots).fields;
    var v := RootsToJson(roots);
    assert forall w :: w in v.fields ==> v.fields[w] == Json.OptStr(roots[w]);
    var back := map w | w in v.fields :: if v.fields[w].Str? then Some(v.fields[w].s) else None;
    assert back == roots;
  }

  lemma {:induction false} DirsRoundTrip(es: seq<Entries.Entry>)
    requires forall i :: 0 <= i < |es| ==> es[i].Dir? && Entries.RoundTrips(es[i])
    ensures DirsFromJson(EntriesToJson(es)) == Ok(UncommentedAll(es))
  {
    if es != [] {
      var items := EntriesToJson(es);
      assert items[1..] == EntriesToJson(es[1..]);
      DirsRoundTrip(es[1..]);
      FirstDirRoundTrip(items, es[0]);
      DirsFromJsonCons(items, Entries.Uncommented(es[0]), UncommentedAll(es[1..]));
      assert UncommentedAll(es) == [Entries.Uncommented(es[0])] + UncommentedAll(es[1..]);
    }
  }

  lemma FirstDirRoundTrip(items: seq<Json.Value>, e: Entries.Entry)
    requires items != [] && items[0] == Entries.ToDict(e) && e.Dir? && Entries.RoundTrips(e)
    ensures Entries.DirFromDict(items[0]) == Ok(Entries.Uncommented(e))
  {
    Entries.DictRoundTrip(e);
    assert Json.Contains(items[0], "path") == Ok(false);
  }

  lemma DirsFromJsonCons(items: seq<Json.Value>, first: Entries.Entry, rest: seq<Entries.Entry>)
    requires items != [] && Entries.DirFromDict(items[0]) == Ok(first) && DirsFromJson(items[1..]) == Ok(rest)
    ensures DirsFromJson(items) == Ok([first] + rest)
  {
  }

  lemma {:induction false} DataDisplaysRoundTrip(ds: seq<DataDisplays.DataDisplay>)
    ensures DataDisplaysFromJson(DataDisplaysToJson(ds)) == Ok(ds)
  {
    if ds != [] {
      DataDisplays.DictRoundTrip(ds[0]);
      assert DataDisplaysToJson(ds)[1..] == DataDisplaysToJson(ds[1..]);
      DataDisplaysRoundTrip(ds[1..]);
      assert ds == [ds[0]] + ds[1..];
    }
  }

  lemma {:induction false} LabelDisplaysRoundTrip(ds: seq<LabelDisplays.LabelDisplay>)
    ensures LabelDisplaysFromJson(LabelDisplaysToJson(ds)) == Ok(ds)
  {
    if ds != [] {
      LabelDisplays.DictRoundTrip(ds[0]);
      assert LabelDisplaysToJson(ds)[1..] == LabelDisplaysToJson(ds[1..]);
      LabelDisplaysRoundTrip(ds[1..]);
      assert ds == [ds[0]] + ds[1..];
    }
  }

  /** A project whose top-level entries are directories and whose labels survive their own
      round trip is saved and reloaded unchanged, except for the file comments. */
  lemma DictRoundTrip(c: Config)
    requires c.roots != map[]
    requires forall i :: 0 <= i < |c.entries| ==> c.entries[i].Dir? && Entries.RoundTrips(c.entries[i])
    ensures FromDict(ToDict(c)) == Ok(c.(entries := UncommentedAll(c.entries)))
  {
    var fields := ToDict(c).fields;
    DictFields(c);
    DirsRoundTrip(c.entries);
    DataDisplaysRoundTrip(c.dataDisplay);
    LabelDisplaysRoundTrip(c.labelDisplay);
    OutputSettingsModel.DictRoundTrip(c.outputSettings);
    RootsRoundTrip(c.roots);
  }

  /** What `from_dict` looks up in the dict `to_dict` wrote. */
  lemma DictFields(c: Config)
    ensures var fields := ToDict(c).fields;
      Json.Lookup(fields, "entries", Json.Arr([])) == Json.Arr(EntriesToJson(c.entries)) &&
      Json.Lookup(fields, "data_display", Json.Arr([])) == Json.Arr(DataDisplaysToJson(c.dataDisplay)) &&
      Json.Lookup(fields, "label_display", Json.Arr([])) == Json.Arr(LabelDisplaysToJson(c.labelDisplay)) &&
      Json.Lookup(fields, "output_settings", Json.Obj(map[])) == OutputSettingsModel.ToDict(c.outputSettings) &&
      Json.Lookup(fields, "data_root_directory", RootsToJson(DefaultRoots)) == RootsToJson(c.roots) &&
      Json.Get(Json.Obj(fields), "proj_name") == Ok(Json.Str(c.projName))
  {
  }

  /** A dict with only a name gives the constructor's defaults. */
  lemma NameOnly(name: string)
    ensures FromDict(Json.Obj(map["proj_name" := Json.Str(name)]))
         == Ok(Config(name, DefaultRoots, [], [], [], OutputSettingsModel.Default))
  {
    OutputSettingsModel.EmptyDictGivesDefaults();
    var v := RootsToJson(DefaultRoots);
    assert "default" in v.fields;
    RootsRoundTrip(DefaultRoots);
  }

  /** A file at the top of the tree is read back as a directory dict, which has no name. */
  lemma RootFileNotReloaded(c: Config, path: string, id: string)
    requires c.roots != map[] && c.entries == [Entries.File(path, id, [], None)]
    ensures FromDict(ToDict(c)) == Err(KeyError("name"))
  {
    var d := ToDict(c);
    var item := Entries.ToDict(c.entries[0]);
    assert EntriesToJson(c.entries) == [item];
    assert Entries.ChildItems(item) == Ok([]);
    assert Entries.DirFromDict(item) == Err(KeyError("name"));
  }

  // ---------------------------------------------------------------------------------------
  // As written: the output settings are dropped

  /** The attributes the constructor as written sets: `output_settings` is accepted as an
      argument and never stored. */
  datatype AsWrittenConfig = AsWrittenConfig(
    projName: string,
    roots: Roots,
    entries: seq<Entries.Entry>,
    dataDisplay: seq<DataDisplays.DataDisplay>,
    labelDisplay: seq<LabelDisplays.LabelDisplay>)

  function AsWrittenNew(projName: string, roots: Roots, entries: seq<Entries.Entry>, dataDisplay: seq<DataDisplays.DataDisplay>,
                        labelDisplay: seq<LabelDisplays.LabelDisplay>,
                        outputSettings: Option<OutputSettingsModel.OutputSettings>): (c: AsWrittenConfig)
    ensures c.roots == RootsOr(roots)
  {
    AsWrittenConfig(projName, RootsOr(roots), entries, dataDisplay, labelDisplay)
  }

  /** `to_dict` as written: the dict literal reaches `self.output_settings`, an attribute no
      code path sets. */
  function AsWrittenToDict(c: AsWrittenConfig): (r: Result<Json.Value>)
  {
    Err(AttributeError("output_settings"))
  }

  /** Even a new project with one default root and nothing else cannot be written out as
      written, while the corrected project saves and reloads. */
  lemma AsWrittenSaveFails(name: string, root: string)
    ensures var c := AsWrittenNew(name, map["default" := Some(root)], [], [], [], None);
      AsWrittenToDict(c) == Err(AttributeError("output_settings"))
    ensures var c := Config(name, map["default" := Some(root)], [], [], [], OutputSettingsModel.Default);
      FromDict(ToDict(c)) == Ok(c)
  {
    var c := Config(name, map["default" := Some(root)], [], [], [], OutputSettingsModel.Default);
    assert "default" in c.roots;
    DictRoundTrip(c);
  }
}
