/** The earlier project configuration (`services/project_config.py`): a tree of directories
    whose children are directories, files or bare labels, its dict form, and the config
    object that holds the tree and the data root. */
module LegacyConfig {
  import opened Wrappers
  import Json
  import Labels
  import Entries

  /** A `Directory`, a `FileEntry` (a path and its labels, no id) or a `Label` placed
      directly in a directory. */
  datatype Node =
    | Directory(name: string, entries: seq<Node>)
    | FileNode(path: string, labels: seq<Labels.Label>)
    | LabelNode(item: Labels.Label)

  /** `FileEntry(path)`: a new file has no labels. */
  function NewFile(path: string): (n: Node)
    ensures n.FileNode? && n.path == path && n.labels == []
  {
    FileNode(path, [])
  }

  function ToDict(n: Node): (r: Json.Value)
    ensures n.Directory? ==> r.Obj? && r.fields.Keys == {"name", "entries"}
    ensures n.FileNode? ==> r.Obj? && r.fields.Keys == {"path", "labels"}
    decreases n
  {
    match n
    case Directory(name, es) =>
      Json.Obj(map["name" := Json.Str(name),
                   "entries" := Json.Arr(seq(|es|, i requires 0 <= i < |es| => ToDict(es[i])))])
    case FileNode(path, labels) =>
      Json.Obj(map["path" := Json.Str(path), "labels" := Json.Arr(Entries.LabelsToJson(labels))])
    case LabelNode(l) => Labels.ToDict(l)
  }

  /** `FileEntry.from_dict`: `path` first, then every item of the required `labels` list. */
  function FileFromDict(data: Json.Value): (r: Result<Node>)
    ensures r.Ok? ==> r.value.FileNode?
    ensures r.Ok? ==> data.Obj? && "path" in data.fields && "labels" in data.fields
  {
    var pathV :- Json.Get(data, "path");
    var path :- Json.AsStr(pathV);
    var labelsV :- Json.Get(data, "labels");
    var items :- Json.Iterate(labelsV, TypeError);
    var labels :- Entries.LabelsFromJson(items);
    Ok(FileNode(path, labels))
  }

  /** The required `data['entries']`, as the loop visits it. */
  function ChildItems(data: Json.Value): Result<seq<Json.Value>>
  {
    var v :- Json.Get(data, "entries");
    Json.Iterate(v, TypeError)
  }

  /** `Directory.from_dict`: the name is read first, then the children in order. */
  function DirFromDict(data: Json.Value): (r: Result<Node>)
    ensures r.Ok? ==> r.value.Directory?
    ensures r.Ok? ==> data.Obj? && "name" in data.fields && "entries" in data.fields
    decreases data, 2
  {
    var nameV :- Json.Get(data, "name");
    var name :- Json.AsStr(nameV);
    var items :- ChildItems(data);
    var children :- ChildrenFromDict(data, items, |items|);
    Ok(Directory(name, children))
  }

  predicate ItemsOf(data: Json.Value, items: seq<Json.Value>)
  {
    data.Obj? && "entries" in data.fields && data.fields["entries"] == Json.Arr(items)
  }

  /** Children to visit come from the "entries" list itself, so each is smaller than the
      dict. */
  lemma ChildItemsOf(data: Json.Value, items: seq<Json.Value>)
    requires ChildItems(data) == Ok(items) && items != []
    ensures ItemsOf(data, items)
  {
  }

  /** The first `n` children, converted in order. */
  function ChildrenFromDict(data: Json.Value, items: seq<Json.Value>, n: nat): (r: Result<seq<Node>>)
    requires ChildItems(data) == Ok(items) && n <= |items|
    ensures r.Ok? ==> |r.value| == n
    decreases data, 1, n
  {
    if n == 0 then Ok([])
    else
      ChildItemsOf(data, items);
      var init :- ChildrenFromDict(data, items, n - 1);
      AppendChild(init, items[n - 1])
  }

  /** One pass of the loop: the child converted and appended to those before it. */
  function AppendChild(children: seq<Node>, child: Json.Value): (r: Result<seq<Node>>)
    ensures r.Ok? ==> |r.value| == |children| + 1
    decreases child, 4
  {
    var last :- ChildFromDict(child);
    Ok(children + [last])
  }

  /** One child: with "behavior" a label, else with "path" a file, else a directory. */
  function ChildFromDict(child: Json.Value): (r: Result<Node>)
    ensures r.Ok? && child.Obj? && "behavior" in child.fields ==> r.value.LabelNode?
    ensures r.Ok? && child.Obj? && "behavior" !in child.fields && "path" in child.fields ==> r.value.FileNode?
    ensures r.Ok? && child.Obj? && "behavior" !in child.fields && "path" !in child.fields ==> r.value.Directory?
    decreases child, 3
  {
    var isLabel :- Json.Contains(child, "behavior");
    if isLabel then
      var l :- Labels.FromDict(child);
      Ok(LabelNode(l))
    else
      var isFile :- Json.Contains(child, "path");
      if isFile then FileFromDict(child) else DirFromDict(child)
  }

  /** `Directory.from_dict` as the source runs it: the name, then the loop over the children. */
  method DirectoryFromDict(data: Json.Value) returns (r: Result<Node>)
    ensures r == DirFromDict(data)
    decreases data, 2
  {
    var nameV := Json.Get(data, "name");
    if nameV.Err? {
      return Err(nameV.error);
    }
    if !nameV.value.Str? {
      return Err(TypeError);
    }
    var items := ChildItems(data);
    if items.Err? {
      return Err(items.error);
    }
    ChildrenListOf(data, items.value);
    var children := ConvertChildren(data, data.fields["entries"], items.value);
    r := if children.Err? then Err(children.error) else Ok(Directory(nameV.value.s, children.value));
  }

  /** The loop of the source, appending each converted child and stopping at the first
      failure. */
  method ConvertChildren(data: Json.Value, list: Json.Value, items: seq<Json.Value>) returns (r: Result<seq<Node>>)
    requires ChildItems(data) == Ok(items) && (items != [] ==> list == Json.Arr(items))
    ensures r == ChildrenFromDict(data, items, |items|)
    decreases list, 1
  {
    var children: seq<Node> := [];
    var i := 0;
    while i < |items|
      invariant 0 <= i <= |items|
      invariant ChildrenFromDict(data, items, i) == Ok(children)
    {
      var next := ConvertNext(data, list, items, i, children);
      if next.Err? {
        ChildrenFailurePersists(data, items, i + 1, |items|, next.error);
        return Err(next.error);
      }
      children := next.value;
      i := i + 1;
    }
    r := Ok(children);
  }

  /** One pass of the loop: child `i` converted and appended to those before it, or its
      failure. */
  method ConvertNext(data: Json.Value, list: Json.Value, items: seq<Json.Value>, i: nat, children: seq<Node>)
    returns (r: Result<seq<Node>>)
    requires ChildItems(data) == Ok(items) && i < |items| && list == Json.Arr(items)
    requires ChildrenFromDict(data, items, i) == Ok(children)
    ensures r == ChildrenFromDict(data, items, i + 1)
    decreases list, 0
  {
    var converted := ConvertChild(items[i]);
    r := if converted.Err? then Err(converted.error) else Ok(children + [converted.value]);
  }

  /** The "entries" list of a dict whose children are read, and whose items those are. */
  lemma ChildrenListOf(data: Json.Value, items: seq<Json.Value>)
    requires ChildItems(data) == Ok(items)
    ensures data.Obj? && "entries" in data.fields
    ensures items != [] ==> data.fields["entries"] == Json.Arr(items)
  {
  }

  /** The body of the loop: one child converted by its keys. */
  method ConvertChild(child: Json.Value) returns (c: Result<Node>)
    ensures c == ChildFromDict(child)
    decreases child, 3
  {
    var isLabel := Json.Contains(child, "behavior");
    if isLabel.Err? {
      return Err(isLabel.error);
    }
    if isLabel.value {
      var l := Labels.FromDict(child);
      return if l.Err? then Err(l.error) else Ok(LabelNode(l.value));
    }
    if Json.Contains(child, "path") == Ok(true) {
      c := FileFromDict(child);
    } else {
      c := DirectoryFromDict(child);
    }
  }

  /** Once the children up to `k` fail, the children up to any later `n` fail the same way. */
  lemma {:induction false} ChildrenFailurePersists(data: Json.Value, items: seq<Json.Value>, k: nat, n: nat, e: Error)
    requires ChildItems(data) == Ok(items) && k <= n <= |items|
    requires ChildrenFromDict(data, items, k) == Err(e)
    ensures ChildrenFromDict(data, items, n) == Err(e)
    decreases n - k
  {
    if k < n {
      FailureStep(data, items, k);
      ChildrenFailurePersists(data, items, k + 1, n, e);
    }
  }

  /** A failure among the first `k` children is the failure of the first `k + 1`. */
  lemma FailureStep(data: Json.Value, items: seq<Json.Value>, k: nat)
    requires ChildItems(data) == Ok(items) && k < |items|
    requires ChildrenFromDict(data, items, k).Err?
    ensures ChildrenFromDict(data, items, k + 1) == ChildrenFromDict(data, items, k)
  {
  }

  // ---------------------------------------------------------------------------------------
  // Round trip

  /** Every label anywhere in the tree survives its own round trip. */
  predicate RoundTrips(n: Node)
    decreases n
  {
    match n
    case Directory(_, es) => forall i :: 0 <= i < |es| ==> RoundTrips(es[i])
    case FileNode(_, labels) => forall i :: 0 <= i < |labels| ==> Entries.LabelRoundTrips(labels[i])
    case LabelNode(l) => Entries.LabelRoundTrips(l)
  }

  /** A directory dict carries no "behavior" or "path" key, and a file dict no "behavior"
      key, so `from_dict(to_dict(n))` rebuilds the whole tree with every node of the same
      kind, whenever its labels survive. */
  lemma {:induction false} DictRoundTrip(n: Node)
    requires RoundTrips(n)
    ensures ChildFromDict(ToDict(n)) == Ok(n)
    decreases n
  {
    match n
    case LabelNode(l) =>
      Labels.DictRoundTrip(l);
    case FileNode(path, labels) =>
      Entries.LabelsRoundTrip(labels);
    case Directory(name, es) =>
      var data := ToDict(n);
      assert Json.Contains(data, "behavior") == Ok(false);
      assert Json.Contains(data, "path") == Ok(false);
      var items := seq(|es|, i requires 0 <= i < |es| => ToDict(es[i]));
      assert ChildItems(data) == Ok(items);
      forall i | 0 <= i < |items|
        ensures ChildFromDict(items[i]) == Ok(es[i])
      {
        DictRoundTrip(es[i]);
      }
      ChildrenConvert(data, items, |es|, es);
      assert es[..|es|] == es;
      assert DirFromDict(data) == Ok(n);
  }

  /** Where every child converts, the first `k` children convert to the first `k`
      results. */
  lemma {:induction false} ChildrenConvert(data: Json.Value, items: seq<Json.Value>, k: nat, out: seq<Node>)
    requires ChildItems(data) == Ok(items) && k <= |items| == |out|
    requires forall i :: 0 <= i < |items| ==> ChildFromDict(items[i]) == Ok(out[i])
    ensures ChildrenFromDict(data, items, k) == Ok(out[..k])
  {
    if k > 0 {
      ChildrenConvert(data, items, k - 1, out);
      assert ChildFromDict(items[k - 1]) == Ok(out[k - 1]);
      TakeSnoc(out, k);
    }
  }

  /** `Directory.from_dict` on the root gives back a directory saved by `to_dict`. */
  lemma RootRoundTrip(name: string, es: seq<Node>)
    requires RoundTrips(Directory(name, es))
    ensures DirFromDict(ToDict(Directory(name, es))) == Ok(Directory(name, es))
  {
    DictRoundTrip(Directory(name, es));
    assert Json.Contains(ToDict(Directory(name, es)), "behavior") == Ok(false);
  }

  /** A file dict without "labels" is rejected, where the newer `FileEntry.from_dict`
      defaults the list to empty. */
  lemma LabelsRequired(path: string)
    ensures FileFromDict(Json.Obj(map["path" := Json.Str(path)])) == Err(KeyError("labels"))
    ensures Entries.FileFromDict(Json.Obj(map["path" := Json.Str(path), "id" := Json.Str("")])).Ok?
  {
    var d := Json.Obj(map["path" := Json.Str(path), "id" := Json.Str("")]);
    assert Json.GetOr(d, "labels", Json.Arr([])) == Ok(Json.Arr([]));
    assert Entries.LabelsFromJson([]) == Ok([]);
  }

  // ---------------------------------------------------------------------------------------
  // The config object

  /** The JSON document `save_config` writes. */
  function SavedJson(dataRoot: Option<string>, root: Node): (r: Json.Value)
    ensures r.Obj? && r.fields.Keys == {"data_root_directory", "root_directory"}
    ensures r.fields["root_directory"] == ToDict(root)
  {
    Json.Obj(map["data_root_directory" := Json.OptStr(dataRoot), "root_directory" := ToDict(root)])
  }

  /** What `load_config` takes from a parsed document: the data root and the tree. */
  function LoadedState(data: Json.Value): (r: Result<(Option<string>, Node)>)
    ensures r.Ok? ==> r.value.1.Directory?
  {
    var dr :- Json.Get(data, "data_root_directory");
    var dataRoot :- Json.AsOptStr(dr);
    var rd :- Json.Get(data, "root_directory");
    var root :- DirFromDict(rd);
    Ok((dataRoot, root))
  }

  /** Loading what was saved restores the data root and the tree. */
  lemma SaveLoad(dataRoot: Option<string>, name: string, es: seq<Node>)
    requires RoundTrips(Directory(name, es))
    ensures LoadedState(SavedJson(dataRoot, Directory(name, es))) == Ok((dataRoot, Directory(name, es)))
  {
    RootRoundTrip(name, es);
  }

  class ProjectConfig {
    const configPath: string
    var dataRootDirectory: Option<string>
    var rootDirectory: Node

    /** A fresh config: no data root and an empty "Root" directory. */
    constructor (path: string)
      ensures configPath == path
      ensures dataRootDirectory == None && rootDirectory == Directory("Root", [])
    {
      configPath := path;
      dataRootDirectory := None;
      rootDirectory := Directory("Root", []);
    }

    /** `initialize_empty_config`: sets the data root and drops the whole tree. */
    method InitializeEmptyConfig(dataRoot: Option<string>)
      modifies this
      ensures dataRootDirectory == dataRoot && rootDirectory == Directory("Root", [])
    {
      dataRootDirectory := dataRoot;
      rootDirectory := Directory("Root", []);
    }

    /** `load_config` once the file is read: the fields are assigned one after the other, so
        a failure in the tree leaves the data root already replaced. */
    method Load(data: Json.Value) returns (err: Option<Error>)
      modifies this
      ensures LoadedState(data).Ok? ==>
        (err == None && (dataRootDirectory, rootDirectory) == LoadedState(data).value)
      ensures err.Some? <==> LoadedState(data).Err?
      ensures err.Some? ==> rootDirectory == old(rootDirectory)
      ensures err.Some? ==>
        var dr := Json.Get(data, "data_root_directory");
        dataRootDirectory ==
          if dr.Ok? && Json.AsOptStr(dr.value).Ok? then Json.AsOptStr(dr.value).value else old(dataRootDirectory)
    {
      var dr := Json.Get(data, "data_root_directory");
      if dr.Err? {
        return Some(dr.error);
      }
      var dataRoot := Json.AsOptStr(dr.value);
      if dataRoot.Err? {
        return Some(dataRoot.error);
      }
      dataRootDirectory := dataRoot.value;
      var rd := Json.Get(data, "root_directory");
      if rd.Err? {
        return Some(rd.error);
      }
      var root := DirectoryFromDict(rd.value);
      if root.Err? {
        return Some(root.error);
      }
      rootDirectory := root.value;
      return None;
    }
  }
}
