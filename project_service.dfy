/** The project service (`services/project_service.py`): path lookup in the project tree,
    adding directories and files, id search, deletion, label and comment updates, the
    per-user data root, the step time and the plot title. Saving is counted, not written. */
module ProjectServiceModel {
  import opened Wrappers
  import Json
  import Text
  import Paths
  import Labels
  import opened Entries
  import opened Tree
  import LabelDisplays
  import ProjectConfigModel

  // ---------------------------------------------------------------------------------------
  // find_directory_by_path

  /** What `find_directory_by_path` answers: the root entry list (`is_root`), a directory
      reached by its route, or nothing. */
  datatype Location = RootList | Directory(route: Route) | NotFound

  /** `path.strip('/').split('/')`. */
  function Segments(path: string): (segs: seq<string>)
    ensures |segs| >= 1
  {
    Text.Split(Text.Strip(path, '/'), '/')
  }

  /** An empty path or the project name names the root list; any other path is followed
      one directory per segment, taking the first directory child with that name. */
  function Locate(projName: string, es: seq<Entry>, path: string): (loc: Location)
    ensures loc.RootList? <==> path == "" || path == projName
    ensures loc.Directory? ==> ValidRoute(es, loc.route) && EntryAt(es, loc.route).Dir?
    ensures loc.Directory? ==> EntryAt(es, loc.route).name == Segments(path)[|Segments(path)| - 1]
    ensures loc.Directory? ==> Walk(es, Segments(path)) == Some(loc.route)
    ensures loc.NotFound? <==> path != "" && path != projName && Walk(es, Segments(path)).None?
  {
    if path == "" || path == projName then RootList
    else
      var segs := Segments(path);
      match Walk(es, segs)
      case None => NotFound
      case Some(r) => WalkSound(es, segs); Directory(r)
  }

  function Prepend(route: Route, r: Option<Route>): Option<Route>
  {
    if r.None? then None else Some(route + r.value)
  }

  // ---------------------------------------------------------------------------------------
  // Edits of the tree

  /** The outcome of an operation that may change the entry list: nothing happened (and
      nothing is saved), the list was changed (and saved), or an exception was raised. */
  datatype Edit = Unchanged | Edited(entries: seq<Entry>) | Failed(error: Error)

  function Apply(es: seq<Entry>, edit: Edit): seq<Entry>
  {
    if edit.Edited? then edit.entries else es
  }

  function ErrorOf(edit: Edit): Option<Error>
  {
    if edit.Failed? then Some(edit.error) else None
  }

  /** `parent_dir.entries.append(e)` for the directory at `r`. */
  function AppendAt(es: seq<Entry>, r: Route, e: Entry): (res: seq<Entry>)
    requires ValidRoute(es, r) && EntryAt(es, r).Dir?
    ensures ValidRoute(res, r) && EntryAt(res, r) == Dir(EntryAt(es, r).name, EntryAt(es, r).entries + [e])
  {
    var d := EntryAt(es, r);
    ReplaceAtHits(es, r, Dir(d.name, d.entries + [e]));
    ReplaceAt(es, r, Dir(d.name, d.entries + [e]))
  }

  function ParentNotFound(path: string): Error
  {
    ValueError("Parent directory '" + path + "' not found.")
  }

  /** `add_directory`: a new empty directory at the end of the root list or of the
      directory the path names; an unknown parent raises ValueError. */
  function AddDirectoryTo(projName: string, es: seq<Entry>, path: string, name: string): (edit: Edit)
    ensures edit.Failed? <==> Locate(projName, es, path).NotFound?
    ensures edit.Failed? ==> edit.error == ParentNotFound(path)
    ensures Locate(projName, es, path).RootList? ==> edit == Edited(es + [NewDir(name)])
    ensures Locate(projName, es, path).Directory? ==> (edit.Edited? &&
      var r := Locate(projName, es, path).route;
      ValidRoute(edit.entries, r) && EntryAt(edit.entries, r).Dir? &&
      EntryAt(edit.entries, r).entries == EntryAt(es, r).entries + [NewDir(name)])
  {
    match Locate(projName, es, path)
    case RootList => Edited(es + [NewDir(name)])
    case Directory(r) => Edited(AppendAt(es, r, NewDir(name)))
    case NotFound => Failed(ParentNotFound(path))
  }

  /** `add_file` after the id is stamped: the root "directory" is the bare entry list, which
      has no `entries` attribute, so only a named directory can take the file. */
  function AddFileTo(projName: string, es: seq<Entry>, path: string, f: Entry): (edit: Edit)
    ensures edit.Edited? <==> Locate(projName, es, path).Directory?
    ensures Locate(projName, es, path).RootList? ==> edit == Failed(AttributeError("entries"))
    ensures Locate(projName, es, path).NotFound? ==> edit == Failed(ParentNotFound(path))
    ensures edit.Edited? ==>
      var r := Locate(projName, es, path).route;
      ValidRoute(edit.entries, r) && EntryAt(edit.entries, r).Dir? &&
      EntryAt(edit.entries, r).entries == EntryAt(es, r).entries + [f]
  {
    match Locate(projName, es, path)
    case RootList => Failed(AttributeError("entries"))
    case Directory(r) => Edited(AppendAt(es, r, f))
    case NotFound => Failed(ParentNotFound(path))
  }

  /** `_does_id_exist`: with no project loaded every id is free. */
  predicate IdTaken(tree: Option<seq<Entry>>, id: string)
  {
    tree.Some? && FindFile(tree.value, id).Some?
  }

  /** The position of the first candidate id `_generate_unique_id` accepts. */
  function FirstFree(tree: Option<seq<Entry>>, draws: seq<string>): (r: Option<nat>)
    ensures r.Some? ==> r.value < |draws| && !IdTaken(tree, draws[r.value])
    ensures r.Some? ==> forall j :: 0 <= j < r.value ==> IdTaken(tree, draws[j])
    ensures r.None? ==> forall j :: 0 <= j < |draws| ==> IdTaken(tree, draws[j])
  {
    if draws == [] then None
    else if !IdTaken(tree, draws[0]) then Some(0)
    else match FirstFree(tree, draws[1..])
      case None => None
      case Some(j) => Some(j + 1)
  }

  /** `_search_file_by_id`: the first file with `id` in depth-first pre-order. */
  function FindEntry(es: seq<Entry>, id: string): (r: Option<Entry>)
    ensures r == FirstWithId(FilesIn(es), id)
    ensures r.None? <==> Count(FilesIn(es), id) == 0
  {
    FindFileCorrect(es, id);
    match FindFile(es, id)
    case None => None
    case Some(route) => Some(EntryAt(es, route))
  }

  /** The first index holding `x` (`list.remove` removes that one). */
  function IndexOf(xs: seq<Entry>, x: Entry): (r: Option<nat>)
    ensures r.None? <==> x !in xs
    ensures r.Some? ==> r.value < |xs| && xs[r.value] == x
  {
    if xs == [] then None
    else if xs[0] == x then Some(0)
    else match IndexOf(xs[1..], x)
      case None => None
      case Some(j) => Some(j + 1)
  }

  /** `delete_file_by_id`: finds the file and, separately, the directory that holds a file
      with that id, and removes the file from that directory. An unknown id or a file of the
      root list (which has no parent directory) changes nothing. */
  function DeleteFile(es: seq<Entry>, id: string): (edit: Edit)
    ensures Count(FilesIn(es), id) == 0 ==> edit == Unchanged
    ensures FindFile(es, id).Some? && |FindFile(es, id).value| == 1 ==> edit == Unchanged
  {
    FindFileCorrect(es, id);
    match FindFile(es, id)
    case None => NoFileNoParent(es, id); Unchanged
    case Some(route) =>
      if |route| == 1 then assert route == [route[0]]; RootLevelNoParent(es, id, route[0]); Unchanged
      else match FindParent(es, id)
        case None => Unchanged
        case Some(p) =>
          FindParentSound(es, id);
          var f := EntryAt(es, route);
          var parent := EntryAt(es, p);
          match IndexOf(parent.entries, f)
          case None => Failed(ValueError("list.remove(x): x not in list"))
          case Some(i) => Edited(ReplaceAt(es, p, Dir(parent.name, parent.entries[..i] + parent.entries[i + 1..])))
  }

  /** What `update_labels` and `update_file_comment` write into the found file. */
  datatype Patch = NewLabels(labels: seq<Labels.Label>) | NewComment(comment: string)

  /** `set_labels` replaces the label list; a comment is assigned; path and id are kept. */
  function Patched(f: Entry, p: Patch): (g: Entry)
    requires f.File?
    ensures g.File? && g.path == f.path && g.id == f.id
    ensures p.NewLabels? ==> g.labels == p.labels && g.comment == f.comment
    ensures p.NewComment? ==> g.comment == Some(p.comment) && g.labels == f.labels
  {
    match p
    case NewLabels(ls) => f.(labels := ls)
    case NewComment(c) => f.(comment := Some(c))
  }

  /** Patches the first file with `id`; an unknown id changes nothing. */
  function UpdateFile(es: seq<Entry>, id: string, p: Patch): (edit: Edit)
    ensures edit.Unchanged? <==> Count(FilesIn(es), id) == 0
    ensures !edit.Failed?
  {
    FindFileCorrect(es, id);
    match FindFile(es, id)
    case None => Unchanged
    case Some(route) => Edited(ReplaceAt(es, route, Patched(EntryAt(es, route), p)))
  }

  // ---------------------------------------------------------------------------------------
  // Data roots

  /** `get_user_data_path`: the user's entry, else the "default" entry, else
      FileNotFoundError. */
  function UserDataPath(roots: ProjectConfigModel.Roots, user: string): (r: Result<Option<string>>)
    ensures r.Ok? <==> user in roots || "default" in roots
    ensures r.Err? ==> r.error == FileNotFoundError
  {
    if user in roots then Ok(roots[user])
    else if "default" in roots then Ok(roots["default"])
    else Err(FileNotFoundError)
  }

  predicate TruthyPath(p: Option<string>)
  {
    p.Some? && p.value != ""
  }

  function GetOrNone(roots: ProjectConfigModel.Roots, key: string): Option<string>
  {
    if key in roots then roots[key] else None
  }

  /** The root `resolve_data_root_directory` settles on: the user's value when it is a
      non-empty path, otherwise the "default" value; `None` when that is not a non-empty
      path either. */
  function ResolvedRoot(roots: ProjectConfigModel.Roots, user: string): (r: Option<string>)
    ensures r.Some? ==> r.value != ""
    ensures TruthyPath(GetOrNone(roots, user)) ==> r == GetOrNone(roots, user)
    ensures !TruthyPath(GetOrNone(roots, user)) && TruthyPath(GetOrNone(roots, "default")) ==> r == roots["default"]
  {
    var mine := GetOrNone(roots, user);
    var chosen := if TruthyPath(mine) then mine else GetOrNone(roots, "default");
    if TruthyPath(chosen) then chosen else None
  }

  /** `get_file_path`: the active root joined with the file's relative path, or nothing
      while no active root is set. */
  function FilePath(roots: ProjectConfigModel.Roots, f: Entry): (r: Option<string>)
    requires f.File?
    ensures r.Some? <==> TruthyPath(GetOrNone(roots, "active"))
  {
    var active := GetOrNone(roots, "active");
    if TruthyPath(active) then Some(Paths.Join(active.value, f.path)) else None
  }

  // ---------------------------------------------------------------------------------------
  // Step time and plot title

  /** `math.ceil(1000 / input_freq)`: the smallest whole number of milliseconds not below
      one sample period; a zero frequency divides by zero. */
  function StepTime(freq: int): (r: Result<int>)
    ensures r.Ok? <==> freq != 0
    ensures r.Err? ==> r.error == ZeroDivisionError
    ensures freq > 0 ==> (r.value - 1) * freq < 1000 <= r.value * freq
    ensures freq < 0 ==> r.value * freq <= 1000 < (r.value - 1) * freq
  {
    if freq == 0 then Err(ZeroDivisionError)
    else if freq > 0 then
      var q := (999 + freq) / freq;
      assert q * freq + (999 + freq) % freq == 999 + freq;
      assert (q - 1) * freq == q * freq - freq;
      Ok(q)
    else
      var g := -freq;
      var q := 1000 / g;
      assert q * g + 1000 % g == 1000;
      assert (-q - 1) * freq == q * g + g;
      Ok(-q)
  }

  /** The plot title of a file at full path `p`: the part before the first underscore of its
      fifth ancestor directory, four spaces, and the file name without its extension. */
  function Title(p: string): (r: string)
    ensures var stem := Paths.Root(Paths.Basename(p));
      |r| >= |stem| + 4 && r[|r| - |stem| - 4..] == "    " + stem && '_' !in r[..|r| - |stem| - 4]
  {
    var id := Text.Split(Paths.Basename(Paths.DirnameN(p, 5)), '_')[0];
    var tail := "    " + Paths.Root(Paths.Basename(p));
    assert (id + tail)[..|id|] == id && (id + tail)[|id|..] == tail;
    id + tail
  }

  // ---------------------------------------------------------------------------------------
  // The service

  class ProjectService {
    var config: ProjectConfigModel.ProjectConfig?
    var inputFreq: int
    /** How many times the project has been saved. */
    ghost var saves: nat

    /** `ProjectService()` with no project path: nothing loaded, 16 Hz input. */
    constructor ()
      ensures config == null && inputFreq == 16 && saves == 0
    {
      config := null;
      inputFreq := 16;
      saves := 0;
    }

    /** The entry list of the loaded project, if any. */
    function Tree(): Option<seq<Entry>>
      reads this, config
    {
      if config == null then None else Some(config.entries)
    }

    /** `load_project` once the file's JSON is parsed: a config that parses replaces the
        current one and its data root is resolved; a parse error propagates and leaves the
        service as it was. */
    method LoadProject(data: Json.Value, user: string, existing: set<string>) returns (err: Option<Error>)
      modifies this
      ensures err.None? <==> ProjectConfigModel.FromDict(data).Ok?
      ensures err.Some? ==> err.value == ProjectConfigModel.FromDict(data).error && config == old(config)
      ensures err.None? ==> config != null && fresh(config)
      ensures err.None? ==> var c := ProjectConfigModel.FromDict(data).value;
        var root := ResolvedRoot(c.roots, user);
        config.State() == c.(roots := if root.Some? && root.value in existing then c.roots["active" := root] else c.roots)
      ensures inputFreq == old(inputFreq) && saves == old(saves)
    {
      var loaded := ProjectConfigModel.ProjectConfig.Load(data);
      if loaded.Err? {
        return Some(loaded.error);
      }
      config := loaded.value;
      ResolveDataRootDirectory(user, existing);
      err := None;
    }

    /** `resolve_data_root_directory`, with the user name and the set of existing paths as
        parameters: records the resolved root as "active" only if it exists. */
    method ResolveDataRootDirectory(user: string, existing: set<string>)
      modifies config
      ensures config != null ==>
        var root := ResolvedRoot(old(config.roots), user);
        config.roots == if root.Some? && root.value in existing then old(config.roots)["active" := root] else old(config.roots)
      ensures config != null ==> config.State() == old(config.State()).(roots := config.roots)
    {
      if config == null {
        return;
      }
      var dataRoot := GetOrNone(config.roots, user);
      if !TruthyPath(dataRoot) {
        dataRoot := GetOrNone(config.roots, "default");
      }
      if TruthyPath(dataRoot) && dataRoot.value in existing {
        config.AddUserPath("active", dataRoot);
      }
    }

    /** `find_directory_by_path`, walking the tree segment by segment. */
    method FindDirectoryByPath(path: string) returns (loc: Location)
      ensures config == null ==> loc == NotFound
      ensures config != null ==> loc == Locate(config.projName, config.entries, path)
    {
      if config == null {
        return NotFound;
      }
      var es := config.entries;
      if path == "" || path == config.projName {
        return RootList;
      }
      var segs := Segments(path);
      var current := es;
      var route: Route := [];
      var k := 0;
      assert segs[k..] == segs;
      assert Walk(es, segs).Some? ==> route + Walk(es, segs).value == Walk(es, segs).value;
      while k < |segs|
        invariant Walking(es, segs, route, current, k)
      {
        var j := FindSubdirectory(current, segs[k]);
        if j == |current| {
          WalkStops(current, segs, k);
          return NotFound;
        }
        WalkAdvances(es, route, current, segs, k, j);
        route := route + [j];
        current := current[j].entries;
        k := k + 1;
      }
      assert segs[k..] == [];
      assert route + [] == route;
      loc := Directory(route);
    }

    /** The inner loop of the walk: the first directory among `current` called `name`, or
        `|current|` when there is none. */
    static method FindSubdirectory(current: seq<Entry>, name: string) returns (j: nat)
      ensures j <= |current|
      ensures forall i :: 0 <= i < j ==> !(current[i].Dir? && current[i].name == name)
      ensures j < |current| ==> current[j].Dir? && current[j].name == name
    {
      j := 0;
      while j < |current| && !(current[j].Dir? && current[j].name == name)
        invariant 0 <= j <= |current|
        invariant forall i :: 0 <= i < j ==> !(current[i].Dir? && current[i].name == name)
      {
        j := j + 1;
      }
    }

    /** `add_directory`: a missing project does nothing; otherwise the new directory is added
        and the project saved, or ValueError leaves the tree alone. */
    method AddDirectory(parentPath: string, name: string) returns (err: Option<Error>)
      modifies this, config
      ensures config == old(config) && inputFreq == old(inputFreq)
      ensures config == null ==> err.None? && saves == old(saves)
      ensures config != null ==>
        var edit := AddDirectoryTo(config.projName, old(config.entries), parentPath, name);
        config.entries == Apply(old(config.entries), edit) && err == ErrorOf(edit) &&
        saves == old(saves) + (if edit.Edited? then 1 else 0)
      ensures config != null ==> config.State() == old(config.State()).(entries := config.entries)
    {
      if config == null {
        return None;
      }
      var loc := FindDirectoryByPath(parentPath);
      var dir := NewDir(name);
      match loc
      case NotFound =>
        err := Some(ParentNotFound(parentPath));
      case RootList =>
        config.entries := config.entries + [dir];
        saves := saves + 1;
        err := None;
      case Directory(r) =>
        config.entries := AppendAt(config.entries, r, dir);
        saves := saves + 1;
        err := None;
    }

    /** `_generate_unique_id`, with the uuid prefixes it would draw as a parameter: the first
        candidate no file in the tree carries. */
    method GenerateUniqueId(draws: seq<string>) returns (id: string)
      requires FirstFree(Tree(), draws).Some?
      ensures id == draws[FirstFree(Tree(), draws).value]
      ensures !IdTaken(Tree(), id)
    {
      var i := 0;
      while IdTaken(Tree(), draws[i])
        invariant 0 <= i <= FirstFree(Tree(), draws).value
        invariant forall j :: 0 <= j < i ==> IdTaken(Tree(), draws[j])
        decreases |draws| - i
      {
        i := i + 1;
      }
      id := draws[i];
    }

    /** `add_file`: stamps the file with a fresh id (even when the parent then turns out to be
        missing), appends it to the named directory and saves. After a successful add the id
        search finds exactly the stamped file. */
    method AddFile(parentPath: string, file: Entry, draws: seq<string>) returns (stamped: Entry, err: Option<Error>)
      requires file.File?
      requires config != null ==> FirstFree(Tree(), draws).Some?
      modifies this, config
      ensures config == old(config) && inputFreq == old(inputFreq)
      ensures config == null ==> stamped == file && err.None? && saves == old(saves)
      ensures config != null ==>
        stamped == file.(id := draws[FirstFree(old(Tree()), draws).value]) &&
        var edit := AddFileTo(config.projName, old(config.entries), parentPath, stamped);
        config.entries == Apply(old(config.entries), edit) && err == ErrorOf(edit) &&
        saves == old(saves) + (if edit.Edited? then 1 else 0)
      ensures config != null ==> config.State() == old(config.State()).(entries := config.entries)
      ensures config != null && err.None? ==>
        Count(FilesIn(config.entries), stamped.id) == 1 && FindEntry(config.entries, stamped.id) == Some(stamped)
    {
      if config == null {
        return file, None;
      }
      var id := GenerateUniqueId(draws);
      stamped := file.(id := id);
      var loc := FindDirectoryByPath(parentPath);
      match loc
      case NotFound =>
        err := Some(ParentNotFound(parentPath));
      case RootList =>
        err := Some(AttributeError("entries"));
      case Directory(r) =>
        FindFileCorrect(config.entries, id);
        AppendFindable(config.entries, r, stamped);
        config.entries := AppendAt(config.entries, r, stamped);
        saves := saves + 1;
        err := None;
    }

    /** `find_file_by_id` (and `get_file_entry`). */
    function FindFileById(id: string): (r: Option<Entry>)
      reads this, config
      ensures config == null ==> r.None?
      ensures config != null ==> r == FirstWithId(FilesIn(config.entries), id)
    {
      if config == null then None else FindEntry(config.entries, id)
    }

    /** `delete_file_by_id`. */
    method DeleteFileById(id: string) returns (err: Option<Error>)
      modifies this, config
      ensures config == old(config) && inputFreq == old(inputFreq)
      ensures config == null ==> err.None? && saves == old(saves)
      ensures config != null ==>
        var edit := DeleteFile(old(config.entries), id);
        config.entries == Apply(old(config.entries), edit) && err == ErrorOf(edit) &&
        saves == old(saves) + (if edit.Edited? then 1 else 0)
      ensures config != null ==> config.State() == old(config.State()).(entries := config.entries)
    {
      if config == null {
        return None;
      }
      var edit := DeleteFile(config.entries, id);
      config.entries := Apply(config.entries, edit);
      if edit.Edited? {
        saves := saves + 1;
      }
      err := ErrorOf(edit);
    }

    /** `update_labels` and `update_file_comment`. */
    method UpdateFileById(id: string, p: Patch)
      modifies this, config
      ensures config == old(config) && inputFreq == old(inputFreq)
      ensures config == null ==> saves == old(saves)
      ensures config != null ==>
        var edit := UpdateFile(old(config.entries), id, p);
        config.entries == Apply(old(config.entries), edit) &&
        saves == old(saves) + (if edit.Edited? then 1 else 0)
      ensures config != null ==> config.State() == old(config.State()).(entries := config.entries)
    {
      if config == null {
        return;
      }
      var edit := UpdateFile(config.entries, id, p);
      config.entries := Apply(config.entries, edit);
      if edit.Edited? {
        saves := saves + 1;
      }
    }

    /** `get_user_data_path`; with no project loaded the attribute access fails. */
    function GetUserDataPath(user: string): (r: Result<Option<string>>)
      reads this, config
      ensures config == null ==> r == Err(AttributeError("data_root_directory"))
      ensures config != null ==> r == UserDataPath(config.roots, user)
    {
      if config == null then Err(AttributeError("data_root_directory")) else UserDataPath(config.roots, user)
    }

    /** `get_file_path`. */
    function GetFilePath(f: Entry): (r: Option<string>)
      requires f.File?
      reads this, config
      ensures config == null ==> r.None?
      ensures config != null ==> r == FilePath(config.roots, f)
    {
      if config == null then None else FilePath(config.roots, f)
    }

    /** `get_label_display`: the first display whose name is the behaviour. */
    method GetLabelDisplay(behavior: string) returns (r: Option<LabelDisplays.LabelDisplay>)
      ensures config == null ==> r.None?
      ensures config != null ==>
        (r.Some? <==> exists i :: 0 <= i < |config.labelDisplay| && config.labelDisplay[i].displayName == Json.Str(behavior))
      ensures config != null && r.Some? ==> (r.value.displayName == Json.Str(behavior) &&
        exists i :: (0 <= i < |config.labelDisplay| && config.labelDisplay[i] == r.value &&
          forall j :: 0 <= j < i ==> config.labelDisplay[j].displayName != Json.Str(behavior)))
    {
      if config == null {
        return None;
      }
      var ds := config.labelDisplay;
      var i := 0;
      while i < |ds|
        invariant 0 <= i <= |ds|
        invariant forall j :: 0 <= j < i ==> ds[j].displayName != Json.Str(behavior)
      {
        if ds[i].displayName == Json.Str(behavior) {
          return Some(ds[i]);
        }
        i := i + 1;
      }
      r := None;
    }

    /** `get_step_time_ms`. */
    function GetStepTimeMs(): (r: Result<int>)
      reads this
      ensures r == StepTime(inputFreq)
    {
      StepTime(inputFreq)
    }

    /** `get_plot_title`: without a file path the path functions receive None. */
    function GetPlotTitle(f: Entry): (r: Result<string>)
      requires f.File?
      reads this, config
      ensures GetFilePath(f).None? ==> r == Err(TypeError)
      ensures GetFilePath(f).Some? ==> r == Ok(Title(GetFilePath(f).value))
    {
      match GetFilePath(f)
      case None => Err(TypeError)
      case Some(p) => Ok(Title(p))
    }
  }

  // ---------------------------------------------------------------------------------------
  // Steps of the path walk

  /** No directory child carries the segment: the rest of the walk fails. */
  lemma WalkStops(current: seq<Entry>, segs: seq<string>, k: nat)
    requires k < |segs|
    requires forall i :: 0 <= i < |current| ==> !(current[i].Dir? && current[i].name == segs[k])
    ensures Walk(current, segs[k..]).None?
  {
    assert segs[k..][0] == segs[k];
    assert ChildDir(current, segs[k]).None?;
  }

  /** The state of the walk after `k` segments: `route` leads from the top to the directory
      whose children are `current`, and the whole walk is that route followed by the walk of
      the remaining segments from there. */
  ghost predicate Walking(es: seq<Entry>, segs: seq<string>, route: Route, current: seq<Entry>, k: nat)
  {
    k <= |segs| && |route| == k &&
    (k == 0 ==> current == es) &&
    (k > 0 ==> ValidRoute(es, route) && EntryAt(es, route).Dir? && current == EntryAt(es, route).entries) &&
    Walk(es, segs) == Prepend(route, Walk(current, segs[k..]))
  }

  /** The scan stopped at the first directory child `j` carrying the segment: the walk goes
      on from that directory, one level deeper. */
  lemma WalkAdvances(es: seq<Entry>, route: Route, current: seq<Entry>, segs: seq<string>, k: nat, j: nat)
    requires Walking(es, segs, route, current, k) && k < |segs|
    requires j < |current| && current[j].Dir? && current[j].name == segs[k]
    requires forall i :: 0 <= i < j ==> !(current[i].Dir? && current[i].name == segs[k])
    ensures Walking(es, segs, route + [j], current[j].entries, k + 1)
  {
    ChildDirIs(current, segs[k], j);
    WalkStep(current, route, segs, k, j);
    PrependStep(route, j, Walk(current[j].entries, segs[k + 1..]));
    if k > 0 {
      ExtendRoute(es, route, j);
    } else {
      assert route + [j] == [j];
    }
  }

  /** The first directory child with the name is the one `ChildDir` picks. */
  lemma {:induction false} ChildDirIs(cs: seq<Entry>, name: string, j: nat)
    requires j < |cs| && cs[j].Dir? && cs[j].name == name
    requires forall i :: 0 <= i < j ==> !(cs[i].Dir? && cs[i].name == name)
    ensures ChildDir(cs, name) == Some(j)
  {
    if j > 0 {
      assert !(cs[0].Dir? && cs[0].name == name);
      ChildDirIs(cs[1..], name, j - 1);
    }
  }

  lemma PrependStep(route: Route, j: nat, rest: Option<Route>)
    ensures Prepend(route, Descend(j, rest)) == Prepend(route + [j], rest)
  {
    if rest.Some? {
      assert route + ([j] + rest.value) == route + [j] + rest.value;
    }
  }

  // ---------------------------------------------------------------------------------------
  // Properties of the tree edits

  lemma FilesOfDir(name: string, cs: seq<Entry>)
    ensures FilesOf(Dir(name, cs)) == FilesIn(cs)
  {
  }

  /** Appending `e` to the directory at `r` appends `e`'s files right after that
      directory's files in the depth-first order. */
  lemma AppendFiles(es: seq<Entry>, r: Route, e: Entry) returns (pre: seq<Entry>, post: seq<Entry>)
    requires ValidRoute(es, r) && EntryAt(es, r).Dir?
    ensures FilesIn(es) == pre + FilesIn(EntryAt(es, r).entries) + post
    ensures FilesIn(AppendAt(es, r, e)) == pre + FilesIn(EntryAt(es, r).entries) + FilesOf(e) + post
  {
    var d := EntryAt(es, r);
    pre, post := ReplaceFiles(es, r, Dir(d.name, d.entries + [e]));
    FilesOfDir(d.name, d.entries + [e]);
    FilesInAppend(d.entries, [e]);
    assert FilesIn([e]) == FilesOf(e) by {
      assert [e][1..] == [];
    }
    Reassociate4(pre, FilesIn(d.entries), FilesOf(e), post);
  }

  /** A new file whose id no file in the tree carries is, after it is appended, the one file
      with that id and the one the search finds; the other ids keep their counts. */
  lemma AppendFindable(es: seq<Entry>, r: Route, f: Entry)
    requires ValidRoute(es, r) && EntryAt(es, r).Dir? && f.File?
    requires Count(FilesIn(es), f.id) == 0
    ensures Count(FilesIn(AppendAt(es, r, f)), f.id) == 1
    ensures FindEntry(AppendAt(es, r, f), f.id) == Some(f)
    ensures forall id :: id != f.id ==> Count(FilesIn(AppendAt(es, r, f)), id) == Count(FilesIn(es), id)
  {
    var pre, post := AppendFiles(es, r, f);
    var mid := FilesIn(EntryAt(es, r).entries);
    assert FilesOf(f) == [f];
    forall id | true
      ensures Count(FilesIn(AppendAt(es, r, f)), id) == Count(FilesIn(es), id) + (if id == f.id then 1 else 0)
    {
      CountAppend(pre, mid, id);
      CountAppend(pre + mid, post, id);
      CountAppend(pre + mid, [f], id);
      CountAppend(pre + mid + [f], post, id);
    }
    CountAppend(pre, mid, f.id);
    CountAppend(pre + mid, post, f.id);
    assert Count(pre + mid, f.id) == 0;
    FirstWithIdAppend(pre, mid, f.id);
    assert FirstWithId([f], f.id) == Some(f);
    FirstWithIdAppend(pre + mid, [f], f.id);
    FirstWithIdAppend(pre + mid + [f], post, f.id);
  }

  /** Adding a file keeps the ids unique. */
  lemma AddFileKeepsIdsUnique(es: seq<Entry>, r: Route, f: Entry)
    requires ValidRoute(es, r) && EntryAt(es, r).Dir? && f.File?
    requires UniqueIds(es) && Count(FilesIn(es), f.id) == 0
    ensures UniqueIds(AppendAt(es, r, f))
  {
    AppendFindable(es, r, f);
  }

  /** A new directory holds no files, so adding one leaves the files of the tree as they
      were. */
  lemma AddDirectoryKeepsFiles(projName: string, es: seq<Entry>, path: string, name: string)
    requires AddDirectoryTo(projName, es, path, name).Edited?
    ensures FilesIn(AddDirectoryTo(projName, es, path, name).entries) == FilesIn(es)
  {
    var d := NewDir(name);
    assert FilesIn([d]) == [] by {
      assert [d][1..] == [];
    }
    match Locate(projName, es, path)
    case RootList =>
      FilesInAppend(es, [d]);
    case Directory(r) =>
      var pre, post := AppendFiles(es, r, d);
  }

  /** Removing child `i`, a file, from the directory at `p` removes that file from the
      depth-first file order and nothing else. */
  lemma RemoveChildFiles(es: seq<Entry>, p: Route, i: nat) returns (before: seq<Entry>, after: seq<Entry>)
    requires ValidRoute(es, p) && EntryAt(es, p).Dir?
    requires i < |EntryAt(es, p).entries| && EntryAt(es, p).entries[i].File?
    ensures var d := EntryAt(es, p);
      FilesIn(es) == before + [d.entries[i]] + after &&
      FilesIn(ReplaceAt(es, p, Dir(d.name, d.entries[..i] + d.entries[i + 1..]))) == before + after
  {
    var d := EntryAt(es, p);
    var cs := d.entries[..i] + d.entries[i + 1..];
    var pre, post := ReplaceFiles(es, p, Dir(d.name, cs));
    FilesInSplit(d.entries, i);
    FilesInAppend(d.entries[..i], d.entries[i + 1..]);
    assert FilesOf(d.entries[i]) == [d.entries[i]];
    FilesOfDir(d.name, cs);
    before := pre + FilesIn(d.entries[..i]);
    after := FilesIn(d.entries[i + 1..]) + post;
    Reassociate(pre, FilesIn(d.entries[..i]), [d.entries[i]], FilesIn(d.entries[i + 1..]), post);
    Reassociate4(pre, FilesIn(d.entries[..i]), FilesIn(d.entries[i + 1..]), post);
  }

  /** Where the unique file with `id` sits below the root list, the deletion takes it out
      of its parent directory. */
  lemma DeleteFileIs(es: seq<Entry>, id: string) returns (p: Route, i: nat)
    requires Count(FilesIn(es), id) == 1
    requires FindFile(es, id).Some? && |FindFile(es, id).value| >= 2
    ensures ValidRoute(es, p) && EntryAt(es, p).Dir?
    ensures i < |EntryAt(es, p).entries| && EntryAt(es, p).entries[i] == FindEntry(es, id).value
    ensures var d := EntryAt(es, p);
      DeleteFile(es, id) == Edited(ReplaceAt(es, p, Dir(d.name, d.entries[..i] + d.entries[i + 1..])))
  {
    var route := FindFile(es, id).value;
    FindFileCorrect(es, id);
    ParentOfUnique(es, id);
    p := route[..|route| - 1];
    PrefixRoute(es, route);
    var f := EntryAt(es, route);
    var d := EntryAt(es, p);
    assert f in d.entries;
    i := IndexOf(d.entries, f).value;
    DeleteFileAt(es, id, route, p, i);
  }

  /** The deletion once the file, its parent and its place among the parent's children
      are known. */
  lemma DeleteFileAt(es: seq<Entry>, id: string, route: Route, p: Route, i: nat)
    requires FindFile(es, id) == Some(route) && ValidRoute(es, route) && |route| >= 2 && FindParent(es, id) == Some(p)
    requires ValidRoute(es, p) && EntryAt(es, p).Dir? && i < |EntryAt(es, p).entries|
    requires IndexOf(EntryAt(es, p).entries, EntryAt(es, route)) == Some(i)
    ensures var d := EntryAt(es, p);
      DeleteFile(es, id) == Edited(ReplaceAt(es, p, Dir(d.name, d.entries[..i] + d.entries[i + 1..])))
  {
  }

  /** Deleting the one file with `id` from a directory removes exactly that file from the
      depth-first file order and nothing else. */
  lemma DeleteRemovesFile(es: seq<Entry>, id: string) returns (before: seq<Entry>, after: seq<Entry>)
    requires Count(FilesIn(es), id) == 1
    requires FindFile(es, id).Some? && |FindFile(es, id).value| >= 2
    ensures DeleteFile(es, id).Edited?
    ensures FilesIn(es) == before + [FindEntry(es, id).value] + after
    ensures FilesIn(DeleteFile(es, id).entries) == before + after
    ensures FindFile(DeleteFile(es, id).entries, id).None?
  {
    var p, i := DeleteFileIs(es, id);
    before, after := RemoveChildFiles(es, p, i);
    var f := FindEntry(es, id).value;
    CountAppend(before, [f], id);
    CountAppend(before + [f], after, id);
    CountAppend(before, after, id);
    assert Count([f], id) == 1;
    FindFileCorrect(DeleteFile(es, id).entries, id);
  }

  /** An update rewrites only the first file with `id`: every other file, and the order of
      all files, is kept. */
  lemma UpdateOnlyTarget(es: seq<Entry>, id: string, p: Patch) returns (before: seq<Entry>, after: seq<Entry>)
    requires Count(FilesIn(es), id) >= 1
    ensures UpdateFile(es, id, p).Edited?
    ensures FilesIn(es) == before + [FindEntry(es, id).value] + after
    ensures FilesIn(UpdateFile(es, id, p).entries) == before + [Patched(FindEntry(es, id).value, p)] + after
  {
    FindFileCorrect(es, id);
    var route := FindFile(es, id).value;
    var f := EntryAt(es, route);
    before, after := ReplaceFiles(es, route, Patched(f, p));
    assert FilesOf(f) == [f];
    assert FilesOf(Patched(f, p)) == [Patched(f, p)];
  }

  /** Right after an update, the search finds the patched file. */
  lemma UpdateThenFind(es: seq<Entry>, id: string, p: Patch)
    requires Count(FilesIn(es), id) == 1
    ensures FindEntry(UpdateFile(es, id, p).entries, id) == Some(Patched(FindEntry(es, id).value, p))
  {
    var before, after := UpdateOnlyTarget(es, id, p);
    var f := FindEntry(es, id).value;
    CountAppend(before, [f], id);
    CountAppend(before + [f], after, id);
    assert Count([f], id) == 1;
    assert FirstWithId([f], id) == Some(f);
    assert FirstWithId([Patched(f, p)], id) == Some(Patched(f, p));
    FirstWithIdAppend(before, [f], id);
    FirstWithIdAppend(before + [f], after, id);
    FirstWithIdAppend(before, [Patched(f, p)], id);
    FirstWithIdAppend(before + [Patched(f, p)], after, id);
  }

  // ---------------------------------------------------------------------------------------
  // Properties of the data roots, the step time and the title

  /** `get_user_data_path` agrees with `ProjectConfig.get_user_path` wherever it does not
      raise. */
  lemma DataPathMatchesUserPath(roots: ProjectConfigModel.Roots, user: string)
    ensures UserDataPath(roots, user).Ok? ==> UserDataPath(roots, user).value == ProjectConfigModel.UserPath(roots, user)
    ensures UserDataPath(roots, user).Err? ==> ProjectConfigModel.UserPath(roots, user) == None
  {
  }

  /** `resolve_data_root_directory` differs from `get_user_data_path`: a user whose entry is
      an empty path falls back to the default root when resolving, but not when asked. */
  lemma ResolveDiffersFromGet()
    ensures var roots := map["me" := Some(""), "default" := Some("/data")];
      ResolvedRoot(roots, "me") == Some("/data") && UserDataPath(roots, "me") == Ok(Some(""))
  {
    var roots := map["me" := Some(""), "default" := Some("/data")];
    assert GetOrNone(roots, "me") == Some("");
    assert GetOrNone(roots, "default") == Some("/data");
  }

  /** The sample periods of common input rates. */
  lemma StepTimes()
    ensures StepTime(16) == Ok(63) && StepTime(10) == Ok(100) && StepTime(1) == Ok(1000) && StepTime(25) == Ok(40)
  {
  }

  /** For a file stored as `parts` under an active root, the title is made of the fifth
      ancestor directory's name up to its first underscore and the file's stem. */
  lemma PlotTitle(active: string, parts: seq<string>)
    requires active != "" && active[|active| - 1] != '/'
    requires Paths.Components(parts) && |parts| >= 6
    ensures Title(Paths.Join(active, Text.Join(parts, '/')))
         == Text.Split(parts[|parts| - 6], '_')[0] + "    " + Paths.Root(parts[|parts| - 1])
  {
    var path := Text.Join(parts, '/');
    Paths.JoinedEnd(parts);
    JoinUnder(active, path);
    CollarName(active, parts, Paths.Join(active, path));
    FileName(active, parts, Paths.Join(active, path));
    TitleOf(Paths.Join(active, path), parts[|parts| - 6], parts[|parts| - 1]);
  }

  lemma JoinUnder(active: string, path: string)
    requires active != "" && active[|active| - 1] != '/' && path != "" && path[0] != '/'
    ensures Paths.Join(active, path) == active + "/" + path
  {
  }

  lemma CollarName(active: string, parts: seq<string>, p: string)
    requires Paths.Components(parts) && |parts| >= 6 && p == active + "/" + Text.Join(parts, '/')
    ensures Paths.Basename(Paths.DirnameN(p, 5)) == parts[|parts| - 6]
  {
    AncestorAt(active, parts, p, 5, parts[|parts| - 6]);
  }

  lemma FileName(active: string, parts: seq<string>, p: string)
    requires Paths.Components(parts) && |parts| >= 6 && p == active + "/" + Text.Join(parts, '/')
    ensures Paths.Basename(Paths.DirnameN(p, 0)) == parts[|parts| - 1]
  {
    AncestorAt(active, parts, p, 0, parts[|parts| - 1]);
  }

  lemma AncestorAt(active: string, parts: seq<string>, p: string, n: nat, name: string)
    requires Paths.Components(parts) && n < |parts| && p == active + "/" + Text.Join(parts, '/')
    requires name == parts[|parts| - 1 - n]
    ensures Paths.Basename(Paths.DirnameN(p, n)) == name
  {
    Paths.AncestorName(active, parts, n);
  }

  lemma TitleOf(p: string, collar: string, name: string)
    requires Paths.Basename(Paths.DirnameN(p, 5)) == collar && Paths.Basename(Paths.DirnameN(p, 0)) == name
    ensures Title(p) == Text.Split(collar, '_')[0] + "    " + Paths.Root(name)
  {
    assert Paths.DirnameN(p, 0) == p;
  }

  /** A data file `<stem>.<ext>` four directories below a collar directory
      `<id>_<rest>` gets the title `<id>    <stem>`, as in "F202    2018-06-09" for
      `F202_27905_010518_072219/MotionData_27905/2018/06 Jun/09/2018-06-09.csv`. */
  lemma PlotTitleShape(active: string, collarId: string, rest: string, middle: seq<string>, stem: string, ext: string)
    requires active != "" && active[|active| - 1] != '/'
    requires Paths.Component(collarId + "_" + rest) && '_' !in collarId
    requires |middle| == 4 && Paths.Components(middle)
    requires Paths.Component(stem) && '.' !in stem && '/' !in ext && '.' !in ext
    ensures Title(Paths.Join(active, Text.Join([collarId + "_" + rest] + middle + [stem + "." + ext], '/')))
         == collarId + "    " + stem
  {
    var parts := [collarId + "_" + rest] + middle + [stem + "." + ext];
    assert parts[0] == collarId + "_" + rest && parts[5] == stem + "." + ext;
    assert forall i :: 1 <= i < 5 ==> parts[i] == middle[i - 1];
    assert Paths.Components(parts);
    PlotTitle(active, parts);
    Text.SplitAt(collarId, '_', rest);
    Paths.RootDropsExtension(stem, ext);
  }

  // ---------------------------------------------------------------------------------------
  // As written: the searches read `.id`, which only `add_file` sets

  /** A file object as the code builds it: `file_id` from the constructor, and an `id`
      attribute only once `add_file` has stamped one. */
  datatype ObjEntry =
    | ObjDir(name: string, entries: seq<ObjEntry>)
    | ObjFile(path: string, fileId: string, idAttr: Option<string>)

  /** The objects `from_dict` builds: no file has an `id` attribute. */
  function Loaded(e: Entry): (o: ObjEntry)
    decreases e
  {
    match e
    case File(path, id, _, _) => ObjFile(path, id, None)
    case Dir(name, es) => ObjDir(name, seq(|es|, i requires 0 <= i < |es| => Loaded(es[i])))
  }

  function LoadedAll(es: seq<Entry>): (os: seq<ObjEntry>)
    ensures |os| == |es|
  {
    seq(|es|, i requires 0 <= i < |es| => Loaded(es[i]))
  }

  /** `_search_file_by_id` as written: reading `entry.id` on a file without it raises. */
  function AsWrittenSearch(os: seq<ObjEntry>, id: string): Result<Option<ObjEntry>>
    decreases os
  {
    if os == [] then Ok(None)
    else match os[0]
      case ObjFile(_, _, idAttr) =>
        if idAttr.None? then Err(AttributeError("id"))
        else if idAttr.value == id then Ok(Some(os[0]))
        else AsWrittenSearch(os[1..], id)
      case ObjDir(_, children) =>
        var found :- AsWrittenSearch(children, id);
        if found.Some? then Ok(found) else AsWrittenSearch(os[1..], id)
  }

  /** On a tree loaded from a project file, the search as written raises as soon as it meets
      a file, so it fails on every tree that holds one, whatever the id. */
  lemma {:induction false} AsWrittenSearchFails(es: seq<Entry>, id: string)
    ensures AsWrittenSearch(LoadedAll(es), id).Err? <==> FilesIn(es) != []
    ensures AsWrittenSearch(LoadedAll(es), id).Ok? ==> AsWrittenSearch(LoadedAll(es), id) == Ok(None)
    decreases es
  {
    if es != [] {
      var os := LoadedAll(es);
      assert os[1..] == LoadedAll(es[1..]);
      AsWrittenSearchFails(es[1..], id);
      if es[0].Dir? {
        assert os[0] == ObjDir(es[0].name, LoadedAll(es[0].entries));
        AsWrittenSearchFails(es[0].entries, id);
      }
    }
  }

  /** The discrepancy on a small tree: the search as written raises, the search by the
      serialised id finds the file. */
  lemma AsWrittenSearchCounterexample()
    ensures var es := [Dir("d", [File("a.csv", "123", [], None)])];
      AsWrittenSearch(LoadedAll(es), "123").Err? && FindEntry(es, "123") == Some(File("a.csv", "123", [], None))
  {
    var es := [Dir("d", [File("a.csv", "123", [], None)])];
    AsWrittenSearchFails(es, "123");
    assert FilesIn(es) == [File("a.csv", "123", [], None)] by {
      assert FilesIn([File("a.csv", "123", [], None)]) == [File("a.csv", "123", [], None)];
    }
  }

  /** `add_file` as written stamps `id`, but `to_dict` writes `file_id`: the saved id is the
      one the caller passed in, not the generated one. */
  function AsWrittenStamp(o: ObjEntry, id: string): ObjEntry
    requires o.ObjFile?
  {
    o.(idAttr := Some(id))
  }

  /** The id `FileEntry.to_dict` writes for a file object. */
  function SavedId(o: ObjEntry): string
    requires o.ObjFile?
  {
    o.fileId
  }

  /** The entry a file handed to `add_file` as written is saved as: the stamp sits on an
      attribute the save never writes. */
  function AsWrittenSaved(f: Entry, id: string): (g: Entry)
    requires f.File?
  {
    f.(id := SavedId(AsWrittenStamp(Loaded(f), id)))
  }

  /** Reloading the saved project rebuilds the tree without comments
      (`ProjectConfigModel.DictRoundTrip`), which keeps every file's id. */
  lemma {:induction false} UncommentedCounts(es: seq<Entry>, id: string)
    ensures Count(FilesIn(ProjectConfigModel.UncommentedAll(es)), id) == Count(FilesIn(es), id)
    decreases es, 1
  {
    if es != [] {
      var u := ProjectConfigModel.UncommentedAll(es);
      assert u[1..] == ProjectConfigModel.UncommentedAll(es[1..]);
      UncommentedCounts(es[1..], id);
      UncommentedCountsOf(es[0], id);
      CountAppend(FilesOf(u[0]), FilesIn(u[1..]), id);
      CountAppend(FilesOf(es[0]), FilesIn(es[1..]), id);
    }
  }

  lemma {:induction false} UncommentedCountsOf(e: Entry, id: string)
    ensures Count(FilesOf(Entries.Uncommented(e)), id) == Count(FilesOf(e), id)
    decreases e, 0
  {
    if e.Dir? {
      assert Entries.Uncommented(e).entries == ProjectConfigModel.UncommentedAll(e.entries);
      UncommentedCounts(e.entries, id);
    } else {
      assert FilesOf(Entries.Uncommented(e)) == [Entries.Uncommented(e)];
      assert FilesOf(e) == [e];
    }
  }

  /** The generated id does not survive a save and reload as written: the reloaded tree has
      no file with it, where the stamped file of `ProjectService.AddFile` is found by it. */
  lemma AsWrittenStampLost(es: seq<Entry>, r: Route, f: Entry, id: string)
    requires ValidRoute(es, r) && EntryAt(es, r).Dir? && f.File?
    requires Count(FilesIn(es), id) == 0 && f.id != id
    ensures FindEntry(ProjectConfigModel.UncommentedAll(AppendAt(es, r, AsWrittenSaved(f, id))), id) == None
    ensures FindEntry(ProjectConfigModel.UncommentedAll(AppendAt(es, r, f.(id := id))), id).Some?
  {
    var g := AsWrittenSaved(f, id);
    assert g == f;
    var pre, post := AppendFiles(es, r, g);
    var mid := FilesIn(EntryAt(es, r).entries);
    assert FilesOf(g) == [g];
    CountAppend(pre, mid, id);
    CountAppend(pre + mid, post, id);
    CountAppend(pre + mid, [g], id);
    CountAppend(pre + mid + [g], post, id);
    UncommentedCounts(AppendAt(es, r, g), id);
    AppendFindable(es, r, f.(id := id));
    UncommentedCounts(AppendAt(es, r, f.(id := id)), id);
  }
}
