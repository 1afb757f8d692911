/** The project tree: directories (`models/directory_entry.py`) holding files
    (`models/file_entry.py`) and further directories, and their dict forms. */
module Entries {
  import opened Wrappers
  import Json
  import Labels

  /** A file's `comment` is set only by the project service and never serialised. */
  datatype Entry =
    | Dir(name: string, entries: seq<Entry>)
    | File(path: string, id: string, labels: seq<Labels.Label>, comment: Option<string>)

  /** `FileEntry(path, file_id, labels)`: a missing label list becomes empty. */
  function NewFile(path: string, id: string, labels: Option<seq<Labels.Label>>): (e: Entry)
    ensures e.File? && e.path == path && e.id == id && e.comment.None?
    ensures e.labels == if labels.Some? then labels.value else []
  {
    File(path, id, if labels.Some? then labels.value else [], None)
  }

  /** `DirectoryEntry(name)`. */
  function NewDir(name: string): (e: Entry)
    ensures e.Dir? && e.name == name && e.entries == []
  {
    Dir(name, [])
  }

  // ---------------------------------------------------------------------------------------
  // to_dict

  function LabelsToJson(ls: seq<Labels.Label>): (r: seq<Json.Value>)
    ensures |r| == |ls|
    ensures forall i :: 0 <= i < |ls| ==> r[i] == Labels.ToDict(ls[i])
  {
    seq(|ls|, i requires 0 <= i < |ls| => Labels.ToDict(ls[i]))
  }

  /** `to_dict`: a file as `path`, `id` and `labels`, a directory as `name` and `entries`
      with one dict per child; only a file's dict has "path". */
  function ToDict(e: Entry): (r: Json.Value)
    ensures r.Obj?
    ensures e.File? ==> r.fields.Keys == {"path", "id", "labels"} && r.fields["id"] == Json.Str(e.id)
    ensures e.Dir? ==> r.fields.Keys == {"name", "entries"} &&
                       r.fields["entries"].Arr? && |r.fields["entries"].items| == |e.entries|
    decreases e
  {
    match e
    case File(path, id, labels, _) =>
      Json.Obj(map["path" := Json.Str(path), "id" := Json.Str(id), "labels" := Json.Arr(LabelsToJson(labels))])
    case Dir(name, es) =>
      Json.Obj(map["name" := Json.Str(name),
                   "entries" := Json.Arr(seq(|es|, i requires 0 <= i < |es| => ToDict(es[i])))])
  }

  // ---------------------------------------------------------------------------------------
  // from_dict

  /** `[Label.from_dict(d) for d in items]`: the first failure wins. */
  function LabelsFromJson(items: seq<Json.Value>): (r: Result<seq<Labels.Label>>)
    ensures r.Ok? ==> |r.value| == |items|
    ensures r.Ok? ==> forall i :: 0 <= i < |items| ==> Labels.FromDict(items[i]) == Ok(r.value[i])
  {
    if items == [] then Ok([])
    else
      var first :- Labels.FromDict(items[0]);
      var rest :- LabelsFromJson(items[1..]);
      Ok([first] + rest)
  }

  /** `FileEntry.from_dict`: the labels are read first, then `path` and `id`. */
  function FileFromDict(data: Json.Value): (r: Result<Entry>)
    ensures r.Ok? ==> r.value.File? && r.value.comment.None? && data.Obj?
  {
    var labelsV :- Json.GetOr(data, "labels", Json.Arr([]));
    var items :- Json.Iterate(labelsV, TypeError);
    var labels :- LabelsFromJson(items);
    var pathV :- Json.Get(data, "path");
    var idV :- Json.Get(data, "id");
    var path :- Json.AsStr(pathV);
    var id :- Json.AsStr(idV);
    Ok(NewFile(path, id, Some(labels)))
  }

  /** The list a directory dict iterates over: `data.get("entries", [])`. */
  function ChildItems(data: Json.Value): Result<seq<Json.Value>>
  {
    var v :- Json.GetOr(data, "entries", Json.Arr([]));
    Json.Iterate(v, AttributeError("get"))
  }

  /** `DirectoryEntry.from_dict`: every child that contains "path" is a file, every other
      child a directory; the name is read after the children. */
  function DirFromDict(data: Json.Value): (r: Result<Entry>)
    ensures r.Ok? ==> r.value.Dir? && data.Obj?
    decreases data, 2
  {
    var items :- ChildItems(data);
    var children :- ChildrenFromDict(data, items, |items|);
    var nameV :- Json.Get(data, "name");
    var name :- Json.AsStr(nameV);
    Ok(Dir(name, children))
  }

  predicate ItemsOf(data: Json.Value, items: seq<Json.Value>)
  {
    data.Obj? && "entries" in data.fields && data.fields["entries"] == Json.Arr(items)
  }

  /** Children to visit come from the "entries" list itself, so each is smaller than the
      dict. */
  lemma ChildItemsOf(data: Json.Value, items: seq<Json.Value>)
    requires ChildItems(data) == Ok(items) && items != []
    ensures ItemsOf(data, items)
  {
  }

  /** The first `n` children, converted in order. */
  function ChildrenFromDict(data: Json.Value, items: seq<Json.Value>, n: nat): (r: Result<seq<Entry>>)
    requires ChildItems(data) == Ok(items) && n <= |items|
    ensures r.Ok? ==> |r.value| == n
    decreases data, 1, n
  {
    if n == 0 then Ok([])
    else
      ChildItemsOf(data, items);
      var init :- ChildrenFromDict(data, items, n - 1);
      var last :- ChildFromDict(items[n - 1]);
      Ok(init + [last])
  }

  /** One child of a directory: a file exactly when its dict has "path". */
  function ChildFromDict(child: Json.Value): (r: Result<Entry>)
    ensures r.Ok? ==> child.Obj? && (r.value.File? <==> "path" in child.fields)
    decreases child, 3
  {
    var isFile :- Json.Contains(child, "path");
    if isFile then FileFromDict(child) else DirFromDict(child)
  }

  /** The same loop written with appends, as the source builds the child list. */
  method DirectoryFromDict(data: Json.Value) returns (r: Result<Entry>)
    ensures r == DirFromDict(data)
    decreases data
  {
    var items := ChildItems(data);
    if items.Err? {
      return Err(items.error);
    }
    var children: seq<Entry> := [];
    var i := 0;
    while i < |items.value|
      invariant 0 <= i <= |items.value|
      invariant ChildrenFromDict(data, items.value, i) == Ok(children)
    {
      var child := items.value[i];
      ChildItemsOf(data, items.value);
      var isFile := Json.Contains(child, "path");
      var converted: Result<Entry>;
      if isFile.Err? {
        converted := Err(isFile.error);
      } else if isFile.value {
        converted := FileFromDict(child);
      } else {
        converted := DirectoryFromDict(child);
      }
      if converted.Err? {
        assert ChildrenFromDict(data, items.value, i + 1) == Err(converted.error);
        ChildrenFailurePersists(data, items.value, i + 1, |items.value|);
        return Err(converted.error);
      }
      children := children + [converted.value];
      i := i + 1;
    }
    var nameV := Json.Get(data, "name");
    if nameV.Err? {
      return Err(nameV.error);
    }
    if !nameV.value.Str? {
      return Err(TypeError);
    }
    r := Ok(Dir(nameV.value.s, children));
  }

  /** Once a child fails, converting more children fails with the same error. */
  lemma {:induction false} ChildrenFailurePersists(data: Json.Value, items: seq<Json.Value>, k: nat, n: nat)
    requires ChildItems(data) == Ok(items) && k <= n <= |items|
    requires ChildrenFromDict(data, items, k).Err?
    ensures ChildrenFromDict(data, items, n) == ChildrenFromDict(data, items, k)
    decreases n
  {
    if n > k {
      ChildrenFailurePersists(data, items, k, n - 1);
    }
  }

  // ---------------------------------------------------------------------------------------
  // Round trip

  /** A label the constructor accepts; every such label survives `to_dict`/`from_dict`
      (`Labels.DictRoundTrip`). */
  predicate LabelRoundTrips(l: Labels.Label)
  {
    Labels.Valid(l)
  }

  /** Every label anywhere in the tree survives the round trip. */
  predicate RoundTrips(e: Entry)
    decreases e
  {
    match e
    case File(_, _, labels, _) => forall i :: 0 <= i < |labels| ==> LabelRoundTrips(labels[i])
    case Dir(_, es) => forall i :: 0 <= i < |es| ==> RoundTrips(es[i])
  }

  /** The tree without the unserialised comments. */
  function Uncommented(e: Entry): (r: Entry)
    decreases e
  {
    match e
    case File(path, id, labels, _) => File(path, id, labels, None)
    case Dir(name, es) => Dir(name, seq(|es|, i requires 0 <= i < |es| => Uncommented(es[i])))
  }

  lemma {:induction false} LabelsRoundTrip(ls: seq<Labels.Label>)
    requires forall i :: 0 <= i < |ls| ==> LabelRoundTrips(ls[i])
    ensures LabelsFromJson(LabelsToJson(ls)) == Ok(ls)
  {
    if ls != [] {
      var items := LabelsToJson(ls);
      assert items[1..] == LabelsToJson(ls[1..]);
      LabelsRoundTrip(ls[1..]);
      FirstLabelRoundTrip(items, ls[0]);
      LabelsFromJsonCons(items, ls[0], ls[1..]);
      assert ls == [ls[0]] + ls[1..];
    }
  }

  lemma FirstLabelRoundTrip(items: seq<Json.Value>, l: Labels.Label)
    requires items != [] && items[0] == Labels.ToDict(l) && LabelRoundTrips(l)
    ensures Labels.FromDict(items[0]) == Ok(l)
  {
    Labels.DictRoundTrip(l);
  }

  lemma LabelsFromJsonCons(items: seq<Json.Value>, first: Labels.Label, rest: seq<Labels.Label>)
    requires items != [] && Labels.FromDict(items[0]) == Ok(first) && LabelsFromJson(items[1..]) == Ok(rest)
    ensures LabelsFromJson(items) == Ok([first] + rest)
  {
  }

  /** `from_dict(to_dict(e))` rebuilds the tree (names, paths, ids, labels, child order)
      whenever its labels survive the round trip; only comments are lost. */
  lemma {:induction false} DictRoundTrip(e: Entry)
    requires RoundTrips(e)
    ensures ChildFromDict(ToDict(e)) == Ok(Uncommented(e))
    decreases e
  {
    match e
    case File(path, id, labels, _) =>
      LabelsRoundTrip(labels);
    case Dir(name, es) =>
      var data := ToDict(e);
      assert Json.Contains(data, "path") == Ok(false);
      var items := seq(|es|, i requires 0 <= i < |es| => ToDict(es[i]));
      var done := Uncommented(e).entries;
      assert ChildItems(data) == Ok(items);
      forall i | 0 <= i < |items|
        ensures ChildFromDict(items[i]) == Ok(done[i])
      {
        DictRoundTrip(es[i]);
      }
      ChildrenConvert(data, items, |items|, done);
      assert done[..|items|] == done;
  }

  /** Where every child converts, the first `n` children convert to the first `n`
      results. */
  lemma {:induction false} ChildrenConvert(data: Json.Value, items: seq<Json.Value>, n: nat, out: seq<Entry>)
    requires ChildItems(data) == Ok(items) && n <= |items| == |out|
    requires forall i :: 0 <= i < |items| ==> ChildFromDict(items[i]) == Ok(out[i])
    ensures ChildrenFromDict(data, items, n) == Ok(out[..n])
  {
    if n > 0 {
      ChildrenConvert(data, items, n - 1, out);
      assert ChildFromDict(items[n - 1]) == Ok(out[n - 1]);
      TakeSnoc(out, n);
    }
  }
}
