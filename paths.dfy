/** The parts of python's `posixpath` the project service uses to build file paths and plot
    titles: `join`, `dirname`, `basename` and `splitext`. */
module Paths {
  import opened Text

  /** `p.rfind(c)`: the last index of `c`, or -1. */
  function RFind(p: string, c: char): (r: int)
    ensures -1 <= r < |p|
    ensures r >= 0 ==> p[r] == c
    ensures forall j :: r < j < |p| ==> p[j] != c
  {
    if p == [] then -1
    else if p[|p| - 1] == c then |p| - 1
    else RFind(p[..|p| - 1], c)
  }

  /** `os.path.join(a, b)`: an absolute `b` replaces `a`; otherwise one '/' separates them. */
  function Join(a: string, b: string): string
  {
    if |b| > 0 && b[0] == '/' then b
    else if a == [] || a[|a| - 1] == '/' then a + b
    else a + "/" + b
  }

  /** `os.path.basename(p)`: what follows the last '/'. */
  function Basename(p: string): (r: string)
    ensures '/' !in r
  {
    p[RFind(p, '/') + 1..]
  }

  predicate AllSlashes(s: string)
  {
    forall i :: 0 <= i < |s| ==> s[i] == '/'
  }

  /** `os.path.dirname(p)`: up to the last '/', with trailing slashes removed unless there is
      nothing else. */
  function Dirname(p: string): string
  {
    var head := p[..RFind(p, '/') + 1];
    if head != [] && !AllSlashes(head) then DropTrailing(head, '/') else head
  }

  function DirnameN(p: string, n: nat): string
    decreases n
  {
    if n == 0 then p else DirnameN(Dirname(p), n - 1)
  }

  /** `os.path.splitext(p)[0]`: drops the extension, the text from the last '.' of the last
      component, unless that component is only dots up to that point. */
  function Root(p: string): string
  {
    var sep := RFind(p, '/');
    var dot := RFind(p, '.');
    if dot > sep && exists k :: sep + 1 <= k < dot && p[k] != '.' then p[..dot] else p
  }

  // ---------------------------------------------------------------------------------------
  // Paths made of plain components

  /** A component with no separator. */
  predicate Component(s: string)
  {
    s != [] && '/' !in s
  }

  predicate Components(parts: seq<string>)
  {
    forall i :: 0 <= i < |parts| ==> Component(parts[i])
  }

  lemma {:induction false} JoinLast(parts: seq<string>)
    requires |parts| >= 2
    ensures Text.Join(parts, '/') == Text.Join(parts[..|parts| - 1], '/') + "/" + parts[|parts| - 1]
  {
    if |parts| > 2 {
      JoinLast(parts[1..]);
      assert parts[1..][..|parts| - 2] == parts[..|parts| - 1][1..];
    }
  }

  lemma {:induction false} JoinedEnd(parts: seq<string>)
    requires |parts| >= 1 && Components(parts)
    ensures var s := Text.Join(parts, '/'); s != [] && s[|s| - 1] != '/' && s[0] != '/'
    ensures !AllSlashes(Text.Join(parts, '/'))
  {
    if |parts| >= 2 {
      JoinLast(parts);
      JoinedEnd(parts[..|parts| - 1]);
    }
  }

  /** The last occurrence is the one with no occurrence after it. */
  lemma {:induction false} RFindIs(p: string, c: char, k: nat)
    requires k < |p| && p[k] == c
    requires forall j :: k < j < |p| ==> p[j] != c
    ensures RFind(p, c) == k
  {
    if k < |p| - 1 {
      RFindIs(p[..|p| - 1], c, k);
    }
  }

  lemma RFindAfter(a: string, b: string)
    requires '/' !in b
    ensures RFind(a + "/" + b, '/') == |a|
  {
    var head := a + "/";
    NoneAfter(head, b, '/');
    assert (head + b)[|a|] == '/';
    RFindIs(head + b, '/', |a|);
  }

  lemma NoneAfter(head: string, b: string, c: char)
    requires c !in b
    ensures forall j :: |head| <= j < |head + b| ==> (head + b)[j] != c
  {
    forall j | |head| <= j < |head + b|
      ensures (head + b)[j] != c
    {
      assert (head + b)[j] == b[j - |head|];
    }
  }

  lemma BasenameAfter(a: string, b: string)
    requires '/' !in b
    ensures Basename(a + "/" + b) == b
  {
    RFindAfter(a, b);
    assert (a + "/" + b)[|a| + 1..] == b;
  }

  lemma DirnameAfter(a: string, b: string)
    requires '/' !in b && a != [] && a[|a| - 1] != '/'
    ensures Dirname(a + "/" + b) == a
  {
    RFindAfter(a, b);
    var head := a + "/";
    assert (a + "/" + b)[..|a| + 1] == head;
    assert head[|a| - 1] != '/';
    assert head[..|head| - 1] == a;
    assert DropTrailing(head, '/') == DropTrailing(a, '/') == a;
  }

  /** One step on plain strings: `pre/init/b` has basename `b` and dirname `pre/init`. */
  lemma SplitLastText(a: string, init: string, b: string)
    requires init != [] && init[|init| - 1] != '/' && '/' !in b
    ensures Basename(a + "/" + init + "/" + b) == b
    ensures Dirname(a + "/" + init + "/" + b) == a + "/" + init
  {
    var pre := a + "/" + init;
    assert pre[|pre| - 1] == init[|init| - 1];
    BasenameAfter(pre, b);
    DirnameAfter(pre, b);
  }

  /** Below a prefix, a path of plain components has its last component as `basename` and
      the rest as `dirname`. */
  lemma SplitLast(a: string, parts: seq<string>)
    requires |parts| >= 2 && Components(parts)
    ensures Basename(a + "/" + Text.Join(parts, '/')) == parts[|parts| - 1]
    ensures Dirname(a + "/" + Text.Join(parts, '/')) == a + "/" + Text.Join(parts[..|parts| - 1], '/')
  {
    var init := Text.Join(parts[..|parts| - 1], '/');
    var b := parts[|parts| - 1];
    JoinLast(parts);
    JoinedEnd(parts[..|parts| - 1]);
    assert init != [] && init[|init| - 1] != '/';
    assert Component(parts[|parts| - 1]);
    SplitLastText(a, init, b);
    Regroup(a, init, b);
  }

  lemma Regroup(a: string, init: string, b: string)
    ensures a + "/" + (init + "/" + b) == a + "/" + init + "/" + b
  {
  }

  /** Taking `dirname` `n` times drops the last `n` components. */
  lemma {:induction false} DirnameDrops(a: string, parts: seq<string>, n: nat)
    requires Components(parts) && n < |parts|
    ensures DirnameN(a + "/" + Text.Join(parts, '/'), n) == a + "/" + Text.Join(parts[..|parts| - n], '/')
    decreases n
  {
    if n > 0 {
      var rest := parts[..|parts| - 1];
      DirnameOnce(a, parts, n);
      DirnameDrops(a, rest, n - 1);
      var kept := parts[..|parts| - n];
      assert rest[..|rest| - (n - 1)] == kept;
      assert DirnameN(a + "/" + Text.Join(rest, '/'), n - 1) == a + "/" + Text.Join(kept, '/');
    } else {
      assert parts[..|parts|] == parts;
    }
  }

  lemma DirnameOnce(a: string, parts: seq<string>, n: nat)
    requires Components(parts) && 0 < n < |parts|
    ensures Components(parts[..|parts| - 1])
    ensures DirnameN(a + "/" + Text.Join(parts, '/'), n) == DirnameN(a + "/" + Text.Join(parts[..|parts| - 1], '/'), n - 1)
  {
    SplitLast(a, parts);
  }

  /** The component `n` levels above the last one is the `basename` of the `n`-th
      `dirname`. */
  lemma AncestorName(a: string, parts: seq<string>, n: nat)
    requires Components(parts) && n < |parts|
    ensures Basename(DirnameN(a + "/" + Text.Join(parts, '/'), n)) == parts[|parts| - 1 - n]
  {
    DirnameDrops(a, parts, n);
    var kept := parts[..|parts| - n];
    if |kept| >= 2 {
      SplitLast(a, kept);
    } else {
      assert Text.Join(kept, '/') == kept[0];
      BasenameAfter(a, kept[0]);
    }
  }

  /** `splitext` drops a final extension from a file name whose stem has no dot. */
  lemma RootDropsExtension(stem: string, ext: string)
    requires Component(stem) && '.' !in stem && '/' !in ext && '.' !in ext
    ensures Root(stem + "." + ext) == stem
  {
    var p := stem + "." + ext;
    RFindIs(p, '.', |stem|);
    assert p[0] == stem[0];
    assert p[..|stem|] == stem;
  }
}
