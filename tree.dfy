/** Searching and rebuilding the project tree (`services/project_service.py`). A node is
    addressed by its route: the child index at each level, starting in the root list. */
module Tree {
  import opened Wrappers
  import opened Entries

  type Route = seq<nat>

  // ---------------------------------------------------------------------------------------
  // Files in depth-first pre-order

  function FilesOf(e: Entry): (r: seq<Entry>)
    ensures forall i :: 0 <= i < |r| ==> r[i].File?
    decreases e, 0
  {
    if e.File? then [e] else FilesIn(e.entries)
  }

  /** Every file of the tree, in the order the recursive searches visit them. */
  function FilesIn(es: seq<Entry>): (r: seq<Entry>)
    ensures forall i :: 0 <= i < |r| ==> r[i].File?
    decreases es, 1
  {
    if es == [] then [] else FilesOf(es[0]) + FilesIn(es[1..])
  }

  /** How many files carry `id`. */
  function Count(fs: seq<Entry>, id: string): nat
  {
    if fs == [] then 0 else (if fs[0].File? && fs[0].id == id then 1 else 0) + Count(fs[1..], id)
  }

  /** The first file carrying `id`, the reference the searches are measured against. */
  function FirstWithId(fs: seq<Entry>, id: string): (r: Option<Entry>)
    ensures r.Some? ==> r.value in fs && r.value.File? && r.value.id == id
    ensures r.None? <==> Count(fs, id) == 0
  {
    if fs == [] then None
    else if fs[0].File? && fs[0].id == id then Some(fs[0])
    else FirstWithId(fs[1..], id)
  }

  /** No two files in the tree share an id. */
  ghost predicate UniqueIds(es: seq<Entry>)
  {
    forall id :: Count(FilesIn(es), id) <= 1
  }

  lemma {:induction false} FilesInAppend(a: seq<Entry>, b: seq<Entry>)
    ensures FilesIn(a + b) == FilesIn(a) + FilesIn(b)
  {
    if a != [] {
      assert (a + b)[0] == a[0];
      assert (a + b)[1..] == a[1..] + b;
      FilesInAppend(a[1..], b);
    } else {
      assert a + b == b;
    }
  }

  lemma FilesInSplit(es: seq<Entry>, i: nat)
    requires i < |es|
    ensures FilesIn(es) == FilesIn(es[..i]) + FilesOf(es[i]) + FilesIn(es[i + 1..])
  {
    SplitAround(es, i);
    FilesInAppend(es[..i], es[i..]);
    FilesInCons(es[i], es[i + 1..]);
  }

  lemma FilesInCons(e: Entry, rest: seq<Entry>)
    ensures FilesIn([e] + rest) == FilesOf(e) + FilesIn(rest)
  {
    assert ([e] + rest)[1..] == rest;
  }

  lemma {:induction false} CountAppend(a: seq<Entry>, b: seq<Entry>, id: string)
    ensures Count(a + b, id) == Count(a, id) + Count(b, id)
  {
    if a != [] {
      assert (a + b)[1..] == a[1..] + b;
      CountAppend(a[1..], b, id);
    } else {
      assert a + b == b;
    }
  }

  lemma {:induction false} FirstWithIdAppend(a: seq<Entry>, b: seq<Entry>, id: string)
    ensures FirstWithId(a + b, id) == if FirstWithId(a, id).Some? then FirstWithId(a, id) else FirstWithId(b, id)
  {
    if a != [] {
      assert (a + b)[1..] == a[1..] + b;
      FirstWithIdAppend(a[1..], b, id);
    } else {
      assert a + b == b;
    }
  }

  // ---------------------------------------------------------------------------------------
  // Routes

  predicate ValidRoute(es: seq<Entry>, r: Route)
    decreases r
  {
    |r| >= 1 && r[0] < |es| && (|r| == 1 || (es[r[0]].Dir? && ValidRoute(es[r[0]].entries, r[1..])))
  }

  function EntryAt(es: seq<Entry>, r: Route): Entry
    requires ValidRoute(es, r)
    decreases r
  {
    if |r| == 1 then es[r[0]] else EntryAt(es[r[0]].entries, r[1..])
  }

  /** The tree with the node at `r` replaced by `e`; every other node is kept. */
  function ReplaceAt(es: seq<Entry>, r: Route, e: Entry): (res: seq<Entry>)
    requires ValidRoute(es, r)
    ensures |res| == |es|
    decreases r
  {
    if |r| == 1 then es[r[0] := e]
    else es[r[0] := Dir(es[r[0]].name, ReplaceAt(es[r[0]].entries, r[1..], e))]
  }

  /** The same route one position further along the list. */
  function Shift(r: Option<Route>): (res: Option<Route>)
    requires r.Some? ==> |r.value| >= 1
    ensures res.Some? <==> r.Some?
    ensures res.Some? ==> |res.value| == |r.value| && res.value[1..] == r.value[1..] && res.value[0] == r.value[0] + 1
  {
    if r.None? then None else Some([r.value[0] + 1] + r.value[1..])
  }

  function Descend(i: nat, r: Option<Route>): (res: Option<Route>)
    ensures res.Some? <==> r.Some?
    ensures res.Some? ==> res.value == [i] + r.value
  {
    if r.None? then None else Some([i] + r.value)
  }

  lemma ShiftRoute(es: seq<Entry>, r: Route)
    requires es != [] && ValidRoute(es[1..], r)
    ensures ValidRoute(es, [r[0] + 1] + r[1..])
    ensures EntryAt(es, [r[0] + 1] + r[1..]) == EntryAt(es[1..], r)
  {
    var s := [r[0] + 1] + r[1..];
    assert s[1..] == r[1..];
  }

  lemma DescendRoute(es: seq<Entry>, i: nat, r: Route)
    requires i < |es| && es[i].Dir? && ValidRoute(es[i].entries, r)
    ensures ValidRoute(es, [i] + r) && EntryAt(es, [i] + r) == EntryAt(es[i].entries, r)
  {
    assert ([i] + r)[1..] == r;
  }

  /** Replacing one node leaves the files before and after it in place: the files of the
      old node give way to the files of the new one. */
  lemma {:induction false} ReplaceFiles(es: seq<Entry>, r: Route, e: Entry) returns (pre: seq<Entry>, post: seq<Entry>)
    requires ValidRoute(es, r)
    ensures FilesIn(es) == pre + FilesOf(EntryAt(es, r)) + post
    ensures FilesIn(ReplaceAt(es, r, e)) == pre + FilesOf(e) + post
    decreases r
  {
    var i := r[0];
    var res := ReplaceAt(es, r, e);
    FilesInSplit(es, i);
    FilesInSplit(res, i);
    assert res[..i] == es[..i] && res[i + 1..] == es[i + 1..];
    var before, after := FilesIn(es[..i]), FilesIn(es[i + 1..]);
    if |r| == 1 {
      assert res[i] == e;
      pre, post := before, after;
    } else {
      var pre', post' := ReplaceFiles(es[i].entries, r[1..], e);
      assert FilesOf(es[i]) == pre' + FilesOf(EntryAt(es, r)) + post';
      assert FilesOf(res[i]) == pre' + FilesOf(e) + post';
      pre, post := before + pre', post' + after;
      Reassociate(before, pre', FilesOf(EntryAt(es, r)), post', after);
      Reassociate(before, pre', FilesOf(e), post', after);
    }
  }

  /** Concatenation regrouped around the middle piece. */
  lemma Reassociate<T>(a: seq<T>, b: seq<T>, c: seq<T>, d: seq<T>, f: seq<T>)
    ensures a + (b + c + d) + f == (a + b) + c + (d + f)
  {
  }

  /** Concatenation regrouped around a middle pair. */
  lemma Reassociate4<T>(a: seq<T>, b: seq<T>, c: seq<T>, d: seq<T>)
    ensures a + (b + c) + d == a + b + c + d == (a + b) + (c + d)
  {
  }

  // ---------------------------------------------------------------------------------------
  // _search_file_by_id

  /** The route of the first file with `id`, searching each directory before the entries
      that follow it. */
  function FindFile(es: seq<Entry>, id: string): (r: Option<Route>)
    ensures r.Some? ==> |r.value| >= 1
    decreases es
  {
    if es == [] then None
    else if es[0].File? && es[0].id == id then Some([0])
    else if es[0].Dir? && FindFile(es[0].entries, id).Some? then Descend(0, FindFile(es[0].entries, id))
    else Shift(FindFile(es[1..], id))
  }

  /** The search finds exactly the first file with that id in pre-order, and finds none
      when no file has it. */
  lemma {:induction false} FindFileCorrect(es: seq<Entry>, id: string)
    ensures FindFile(es, id).None? <==> Count(FilesIn(es), id) == 0
    ensures FindFile(es, id).Some? ==>
      ValidRoute(es, FindFile(es, id).value) && Some(EntryAt(es, FindFile(es, id).value)) == FirstWithId(FilesIn(es), id)
    decreases es
  {
    if es != [] {
      FirstWithIdAppend(FilesOf(es[0]), FilesIn(es[1..]), id);
      CountAppend(FilesOf(es[0]), FilesIn(es[1..]), id);
      FindFileCorrect(es[1..], id);
      var rest := FindFile(es[1..], id);
      if rest.Some? {
        ShiftRoute(es, rest.value);
      }
      if es[0].Dir? {
        FindFileCorrect(es[0].entries, id);
        var inner := FindFile(es[0].entries, id);
        if inner.Some? {
          DescendRoute(es, 0, inner.value);
        }
      }
    }
  }

  /** A file of the list counts towards its id. */
  lemma CountMember(cs: seq<Entry>, k: nat, id: string)
    requires k < |cs| && cs[k].File? && cs[k].id == id
    ensures Count(FilesIn(cs), id) >= 1
  {
    FilesInSplit(cs, k);
    CountAppend(FilesIn(cs[..k]) + FilesOf(cs[k]), FilesIn(cs[k + 1..]), id);
    CountAppend(FilesIn(cs[..k]), FilesOf(cs[k]), id);
  }

  /** With unique ids, a file directly in a list is the one the search finds. */
  lemma {:induction false} FindDirectChild(cs: seq<Entry>, k: nat, id: string)
    requires k < |cs| && cs[k].File? && cs[k].id == id && Count(FilesIn(cs), id) <= 1
    ensures FindFile(cs, id) == Some([k])
    decreases k
  {
    if k > 0 {
      var rest := cs[1..];
      CountAppend(FilesOf(cs[0]), FilesIn(rest), id);
      assert rest[k - 1] == cs[k];
      CountMember(rest, k - 1, id);
      assert Count(FilesOf(cs[0]), id) == 0;
      if cs[0].Dir? {
        FindFileCorrect(cs[0].entries, id);
      }
      FindDirectChild(rest, k - 1, id);
      assert FindFile(cs, id) == Shift(Some([k - 1]));
      assert [k - 1 + 1] + [k - 1][1..] == [k];
    }
  }

  // ---------------------------------------------------------------------------------------
  // find_parent_directory_of_file

  predicate HasFileChild(cs: seq<Entry>, id: string)
  {
    exists i :: 0 <= i < |cs| && cs[i].File? && cs[i].id == id
  }

  /** The route of the first directory with a direct child file carrying `id`. As in the
      source, a matching file met directly in a list ends that list's search with nothing
      found, so a file in the root list has no parent. */
  function FindParent(es: seq<Entry>, id: string): (r: Option<Route>)
    ensures r.Some? ==> |r.value| >= 1
    decreases es
  {
    if es == [] then None
    else if es[0].File? && es[0].id == id then None
    else if es[0].Dir? && HasFileChild(es[0].entries, id) then Some([0])
    else if es[0].Dir? && FindParent(es[0].entries, id).Some? then Descend(0, FindParent(es[0].entries, id))
    else Shift(FindParent(es[1..], id))
  }

  /** What the parent search returns is a directory holding such a file. */
  lemma {:induction false} FindParentSound(es: seq<Entry>, id: string)
    requires FindParent(es, id).Some?
    ensures ValidRoute(es, FindParent(es, id).value)
    ensures EntryAt(es, FindParent(es, id).value).Dir?
    ensures HasFileChild(EntryAt(es, FindParent(es, id).value).entries, id)
    decreases es
  {
    if es[0].Dir? && !HasFileChild(es[0].entries, id) && FindParent(es[0].entries, id).Some? {
      FindParentSound(es[0].entries, id);
      DescendRoute(es, 0, FindParent(es[0].entries, id).value);
    } else if !(es[0].Dir? && HasFileChild(es[0].entries, id)) {
      FindParentSound(es[1..], id);
      ShiftRoute(es, FindParent(es[1..], id).value);
    }
  }

  /** A file at the top of the list hides every parent after it. */
  lemma RootFileHasNoParent(es: seq<Entry>, id: string)
    requires es != [] && es[0].File? && es[0].id == id
    ensures FindParent(es, id) == None
  {
  }

  lemma {:induction false} NoFileNoParent(es: seq<Entry>, id: string)
    requires Count(FilesIn(es), id) == 0
    ensures FindParent(es, id) == None
    decreases es
  {
    if es != [] {
      CountAppend(FilesOf(es[0]), FilesIn(es[1..]), id);
      if es[0].Dir? {
        if HasFileChild(es[0].entries, id) {
          var k :| 0 <= k < |es[0].entries| && es[0].entries[k].File? && es[0].entries[k].id == id;
          FindDirectChild(es[0].entries, k, id);
          FindFileCorrect(es[0].entries, id);
        }
        NoFileNoParent(es[0].entries, id);
      }
      NoFileNoParent(es[1..], id);
    }
  }

  /** The directory route that holds the node at `r`; none for a node of the root list. */
  function ParentRoute(r: Route): Option<Route>
    requires |r| >= 1
  {
    if |r| == 1 then None else Some(r[..|r| - 1])
  }

  lemma ShiftParentRoute(r: Route)
    requires |r| >= 1
    ensures var s := Shift(Some(r)).value;
            ParentRoute(s) == if |r| == 1 then None else Shift(ParentRoute(r))
  {
    if |r| > 1 {
      var s := Shift(Some(r)).value;
      assert s[..|r| - 1] == [r[0] + 1] + r[..|r| - 1][1..];
    }
  }

  /** The step past a first entry that holds no file with `id`. */
  lemma ParentPastEntry(es: seq<Entry>, id: string)
    requires es != [] && Count(FilesOf(es[0]), id) == 0
    requires FindFile(es[1..], id).Some?
    requires FindParent(es[1..], id) == ParentRoute(FindFile(es[1..], id).value)
    ensures FindFile(es, id).Some?
    ensures FindParent(es, id) == ParentRoute(FindFile(es, id).value)
  {
    if es[0].Dir? {
      var cs := es[0].entries;
      FindFileCorrect(cs, id);
      NoFileNoParent(cs, id);
      if HasFileChild(cs, id) {
        var k :| 0 <= k < |cs| && cs[k].File? && cs[k].id == id;
        CountMember(cs, k, id);
      }
    }
    ShiftParentRoute(FindFile(es[1..], id).value);
  }

  /** The step into a first directory that holds the one file with `id` below a direct child. */
  lemma ParentInsideEntry(es: seq<Entry>, id: string)
    requires es != [] && es[0].Dir? && !HasFileChild(es[0].entries, id)
    requires FindFile(es[0].entries, id).Some?
    requires FindParent(es[0].entries, id) == ParentRoute(FindFile(es[0].entries, id).value)
    ensures FindFile(es, id).Some?
    ensures FindParent(es, id) == ParentRoute(FindFile(es, id).value)
  {
    var cs := es[0].entries;
    FindFileCorrect(cs, id);
    var r := FindFile(cs, id).value;
    if |r| == 1 {
      assert false;
    }
    assert ([0] + r)[..|r|] == [0] + r[..|r| - 1];
  }

  /** With unique ids, the parent search returns the directory that directly holds the file
      the search finds, and nothing when that file sits in the root list. */
  lemma {:induction false} ParentOfUnique(es: seq<Entry>, id: string)
    requires Count(FilesIn(es), id) == 1
    ensures FindFile(es, id).Some?
    ensures FindParent(es, id) == ParentRoute(FindFile(es, id).value)
    decreases es
  {
    FindFileCorrect(es, id);
    CountAppend(FilesOf(es[0]), FilesIn(es[1..]), id);
    if Count(FilesOf(es[0]), id) == 0 {
      ParentOfUnique(es[1..], id);
      ParentPastEntry(es, id);
    } else if es[0].Dir? {
      var cs := es[0].entries;
      if HasFileChild(cs, id) {
        var k :| 0 <= k < |cs| && cs[k].File? && cs[k].id == id;
        FindDirectChild(cs, k, id);
      } else {
        ParentOfUnique(cs, id);
        ParentInsideEntry(es, id);
      }
    }
  }

  // ---------------------------------------------------------------------------------------
  // Path lookup (find_directory_by_path)

  /** The index of the first directory child named `name`. */
  function ChildDir(es: seq<Entry>, name: string): (r: Option<nat>)
    ensures r.Some? ==> r.value < |es| && es[r.value].Dir? && es[r.value].name == name
    ensures r.Some? ==> forall j :: 0 <= j < r.value ==> !(es[j].Dir? && es[j].name == name)
    ensures r.None? ==> forall j :: 0 <= j < |es| ==> !(es[j].Dir? && es[j].name == name)
  {
    if es == [] then None
    else if es[0].Dir? && es[0].name == name then Some(0)
    else match ChildDir(es[1..], name)
      case None => None
      case Some(j) => Some(j + 1)
  }

  /** Follows `segs` from `es`, one directory per segment, taking the first directory with
      the segment's name at each level. */
  function Walk(es: seq<Entry>, segs: seq<string>): (r: Option<Route>)
    ensures r.Some? ==> |r.value| == |segs|
    decreases segs
  {
    if segs == [] then Some([])
    else match ChildDir(es, segs[0])
      case None => None
      case Some(i) => Descend(i, Walk(es[i].entries, segs[1..]))
  }

  /** A route the walk returns leads through directories named by the segments. */
  lemma {:induction false} WalkSound(es: seq<Entry>, segs: seq<string>)
    requires segs != [] && Walk(es, segs).Some?
    ensures ValidRoute(es, Walk(es, segs).value)
    ensures EntryAt(es, Walk(es, segs).value).Dir?
    ensures EntryAt(es, Walk(es, segs).value).name == segs[|segs| - 1]
    decreases segs
  {
    var i := ChildDir(es, segs[0]).value;
    if |segs| > 1 {
      WalkSound(es[i].entries, segs[1..]);
      DescendRoute(es, i, Walk(es[i].entries, segs[1..]).value);
    }
  }

  lemma WalkStep(es: seq<Entry>, route: Route, segs: seq<string>, k: nat, i: nat)
    requires k < |segs| && ChildDir(es, segs[k]) == Some(i)
    ensures Walk(es, segs[k..]) == Descend(i, Walk(es[i].entries, segs[k + 1..]))
  {
    assert segs[k..][0] == segs[k] && segs[k..][1..] == segs[k + 1..];
  }

  lemma ExtendRoute(es: seq<Entry>, route: Route, i: nat)
    requires ValidRoute(es, route) && EntryAt(es, route).Dir? && i < |EntryAt(es, route).entries|
    ensures ValidRoute(es, route + [i]) && EntryAt(es, route + [i]) == EntryAt(es, route).entries[i]
    decreases route
  {
    if |route| > 1 {
      assert (route + [i])[1..] == route[1..] + [i];
      ExtendRoute(es[route[0]].entries, route[1..], i);
    }
  }

  // ---------------------------------------------------------------------------------------
  // Routes into a parent directory

  /** A route of length two or more leads through its parent directory. */
  lemma {:induction false} PrefixRoute(es: seq<Entry>, r: Route)
    requires ValidRoute(es, r) && |r| >= 2
    ensures ValidRoute(es, r[..|r| - 1]) && EntryAt(es, r[..|r| - 1]).Dir?
    ensures r[|r| - 1] < |EntryAt(es, r[..|r| - 1]).entries|
    ensures EntryAt(es, r) == EntryAt(es, r[..|r| - 1]).entries[r[|r| - 1]]
    decreases r
  {
    var init := r[..|r| - 1];
    if |r| > 2 {
      PrefixRoute(es[r[0]].entries, r[1..]);
      assert r[1..][..|r| - 2] == init[1..];
    }
  }

  /** Two files with the same id in one list count twice. */
  lemma TwoFiles(cs: seq<Entry>, j: nat, k: nat, id: string)
    requires j < k < |cs| && cs[j].File? && cs[j].id == id && cs[k].File? && cs[k].id == id
    ensures Count(FilesIn(cs), id) >= 2
  {
    FilesInSplit(cs, k);
    CountMember(cs[..k], j, id);
    CountAppend(FilesIn(cs[..k]), FilesOf(cs[k]), id);
    CountAppend(FilesIn(cs[..k]) + FilesOf(cs[k]), FilesIn(cs[k + 1..]), id);
  }

  /** A file the search finds directly in the root list has no parent directory. */
  lemma {:induction false} RootLevelNoParent(es: seq<Entry>, id: string, k: nat)
    requires FindFile(es, id) == Some([k])
    ensures FindParent(es, id) == None
    decreases es
  {
    if !(es[0].File? && es[0].id == id) {
      if es[0].Dir? {
        FindFileCorrect(es[0].entries, id);
        NoFileNoParent(es[0].entries, id);
        assert !HasFileChild(es[0].entries, id) by {
          if HasFileChild(es[0].entries, id) {
            var i :| 0 <= i < |es[0].entries| && es[0].entries[i].File? && es[0].entries[i].id == id;
            CountMember(es[0].entries, i, id);
          }
        }
      }
      var tail := FindFile(es[1..], id);
      assert FindFile(es, id) == Shift(tail);
      assert tail.Some? && tail.value == [k - 1];
      RootLevelNoParent(es[1..], id, k - 1);
    }
  }

  /** After replacing the node at `r`, the route still leads to the new node. */
  lemma {:induction false} ReplaceAtHits(es: seq<Entry>, r: Route, e: Entry)
    requires ValidRoute(es, r)
    ensures ValidRoute(ReplaceAt(es, r, e), r) && EntryAt(ReplaceAt(es, r, e), r) == e
    decreases r
  {
    if |r| > 1 {
      ReplaceAtHits(es[r[0]].entries, r[1..], e);
    }
  }
}
