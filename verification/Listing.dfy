/**
 What walking a directory finds (internal/agentinterop/skills.go:52-104): every file and directory
 at or below a location, each directory before what is in it, names in order.
 */
module Listing {
  import opened Options
  import opened FileTree
  import opened Effects
  import opened Transaction
  import opened Execution
  import opened Planner
  import opened Ordering

  datatype TreeEntry = TreeEntry(rel: seq<string>, img: Image, data: Bytes)

  function Under(l: Location, rel: seq<string>): Location {
    Location(l.root, l.path + rel)
  }

  predicate Inside(a: Location, l: Location) {
    a.root == l.root && a.path <= l.path
  }

  function EntryAt(t: Tree, l: Location, rel: seq<string>): TreeEntry {
    TreeEntry(rel, ImageAt(t, Under(l, rel)), DataAt(t, Under(l, rel)))
  }

  /** Only files and directories, none too deep, at and below `rel`. */
  ghost predicate Plain(t: Tree, l: Location, rel: seq<string>)
    decreases MAX_DEPTH + 1 - |l.path| - |rel|
  {
    && |l.path| + |rel| <= MAX_DEPTH
    && Under(l, rel) in t && !t[Under(l, rel)].Link?
    && (t[Under(l, rel)].Dir? ==> forall name <- Names(t, Under(l, rel)) :: Plain(t, l, rel + [name]))
  }

  function TreeList(t: Tree, l: Location, rel: seq<string>): seq<TreeEntry>
    decreases MAX_DEPTH + 1 - |l.path| - |rel|, 1, 0
  {
    [EntryAt(t, l, rel)] +
    if |l.path| + |rel| <= MAX_DEPTH && Under(l, rel) in t && t[Under(l, rel)].Dir?
    then ListAll(t, l, rel, Listed(Names(t, Under(l, rel))))
    else []
  }

  function ListAll(t: Tree, l: Location, rel: seq<string>, names: seq<string>): seq<TreeEntry>
    requires |l.path| + |rel| <= MAX_DEPTH
    decreases MAX_DEPTH + 1 - |l.path| - |rel|, 0, |names|
  {
    if names == [] then [] else TreeList(t, l, rel + [names[0]]) + ListAll(t, l, rel, names[1..])
  }

  /** The entry for `rel`'s directory comes before position `j`, unless that directory is `top`. */
  ghost predicate Anchored(es: seq<TreeEntry>, top: seq<string>, j: nat)
    requires j < |es|
  {
    var p := es[j].rel;
    top < p && (p[..|p| - 1] == top || exists i :: 0 <= i < j && es[i].rel == p[..|p| - 1])
  }

  ghost predicate Distinct(es: seq<TreeEntry>) {
    forall i, j :: 0 <= i < j < |es| ==> es[i].rel != es[j].rel
  }

  /** What is below `top`, as a walk lists it. */
  ghost predicate Shape(t: Tree, l: Location, top: seq<string>, es: seq<TreeEntry>) {
    && (forall j :: 0 <= j < |es| ==> es[j] == EntryAt(t, l, es[j].rel))
    && (forall j :: 0 <= j < |es| ==> Anchored(es, top, j))
    && Distinct(es)
  }

  ghost predicate Through(es: seq<TreeEntry>, top: seq<string>, names: seq<string>) {
    forall j :: 0 <= j < |es| ==> top < es[j].rel && es[j].rel[|top|] in names
  }

  lemma AnchoredJoin(es: seq<TreeEntry>, fs: seq<TreeEntry>, top: seq<string>)
    requires forall j :: 0 <= j < |es| ==> Anchored(es, top, j)
    requires forall j :: 0 <= j < |fs| ==> Anchored(fs, top, j)
    ensures forall j :: 0 <= j < |es + fs| ==> Anchored(es + fs, top, j)
  {
    forall j | 0 <= j < |es + fs|
      ensures Anchored(es + fs, top, j)
    {
      var p := (es + fs)[j].rel;
      if j < |es| {
        assert Anchored(es, top, j);
        if p[..|p| - 1] != top {
          var i :| 0 <= i < j && es[i].rel == p[..|p| - 1];
          assert (es + fs)[i] == es[i];
        }
      } else {
        assert Anchored(fs, top, j - |es|);
        if p[..|p| - 1] != top {
          var i :| 0 <= i < j - |es| && fs[i].rel == p[..|p| - 1];
          assert (es + fs)[|es| + i] == fs[i];
        }
      }
    }
  }

  lemma JoinShape(t: Tree, l: Location, top: seq<string>, a: seq<TreeEntry>, n: string, b: seq<TreeEntry>,
      names: seq<string>)
    requires Shape(t, l, top, a) && Through(a, top, [n]) && Shape(t, l, top, b) && Through(b, top, names) && n !in names
    ensures Shape(t, l, top, a + b) && Through(a + b, top, [n] + names)
  {
    AnchoredJoin(a, b, top);
    hide EntryAt, Anchored;
    forall i, j | 0 <= i < |a| && 0 <= j < |b|
      ensures a[i].rel != b[j].rel
    {
      assert a[i].rel[|top|] == n && b[j].rel[|top|] in names;
    }
  }

  /** A listing below `rel + [name]`, with the entry of `rel + [name]` in front, hangs below `rel`. */
  lemma ShapeUp(t: Tree, l: Location, rel: seq<string>, name: string, es: seq<TreeEntry>, names: seq<string>)
    requires Shape(t, l, rel + [name], es) && Through(es, rel + [name], names)
    ensures Shape(t, l, rel, [EntryAt(t, l, rel + [name])] + es) && Through([EntryAt(t, l, rel + [name])] + es, rel, [name])
  {
    var e := EntryAt(t, l, rel + [name]);
    assert e.rel == rel + [name];
    hide EntryAt;
    AnchoredUp(e, es, rel, name);
    hide Anchored;
    forall j | 0 < j < |[e] + es|
      ensures ([e] + es)[j] == es[j - 1] && rel + [name] < ([e] + es)[j].rel
    {
    }
    assert Through([e] + es, rel, [name]);
  }

  lemma AnchoredUp(e: TreeEntry, es: seq<TreeEntry>, rel: seq<string>, name: string)
    requires e.rel == rel + [name] && forall j :: 0 <= j < |es| ==> Anchored(es, rel + [name], j)
    ensures forall j :: 0 <= j < |[e] + es| ==> Anchored([e] + es, rel, j)
  {
    assert (rel + [name])[..|rel|] == rel;
    var fs := [e] + es;
    forall j | 0 <= j < |fs|
      ensures Anchored(fs, rel, j)
    {
      if j > 0 {
        assert fs[j] == es[j - 1] && Anchored(es, rel + [name], j - 1);
        var p := es[j - 1].rel;
        if p[..|p| - 1] == rel + [name] {
          assert fs[0].rel == p[..|p| - 1];
        } else {
          var i :| 0 <= i < j - 1 && es[i].rel == p[..|p| - 1];
          assert fs[i + 1].rel == p[..|p| - 1];
        }
      }
    }
  }

  lemma {:induction false} ListShape(t: Tree, l: Location, rel: seq<string>) returns (names: seq<string>)
    ensures TreeList(t, l, rel) == [EntryAt(t, l, rel)] + TreeList(t, l, rel)[1..]
    ensures Shape(t, l, rel, TreeList(t, l, rel)[1..]) && Through(TreeList(t, l, rel)[1..], rel, names)
    decreases MAX_DEPTH + 1 - |l.path| - |rel|, 1, 0
  {
    names := [];
    if |l.path| + |rel| <= MAX_DEPTH && Under(l, rel) in t && t[Under(l, rel)].Dir? {
      names := Listed(Names(t, Under(l, rel)));
      AllShape(t, l, rel, names);
      assert TreeList(t, l, rel)[1..] == ListAll(t, l, rel, names);
    } else {
      assert TreeList(t, l, rel)[1..] == [];
    }
  }

  lemma {:induction false} AllShape(t: Tree, l: Location, rel: seq<string>, names: seq<string>)
    requires |l.path| + |rel| <= MAX_DEPTH && Ascending(names)
    ensures Shape(t, l, rel, ListAll(t, l, rel, names)) && Through(ListAll(t, l, rel, names), rel, names)
    decreases MAX_DEPTH + 1 - |l.path| - |rel|, 0, |names|
  {
    hide Shape, Through, EntryAt, TreeList;
    if names == [] {
      ShapeNone(t, l, rel);
    } else {
      var here, rest := TreeList(t, l, rel + [names[0]]), ListAll(t, l, rel, names[1..]);
      var below := ListShape(t, l, rel + [names[0]]);
      AllShape(t, l, rel, names[1..]);
      ShapeUp(t, l, rel, names[0], here[1..], below);
      LessTotal(names[0], names[0]);
      assert names[0] !in names[1..];
      JoinShape(t, l, rel, here, names[0], rest, names[1..]);
      assert names == [names[0]] + names[1..];
    }
  }

  lemma ShapeNone(t: Tree, l: Location, rel: seq<string>)
    ensures Shape(t, l, rel, []) && Through([], rel, [])
  {
  }

  /** Nothing at or below a plain location is missed. */
  lemma {:induction false} ListComplete(t: Tree, l: Location, rel: seq<string>, k: Location) returns (i: nat)
    requires Closed(t) && Plain(t, l, rel) && k in t && Inside(Under(l, rel), k)
    ensures i < |TreeList(t, l, rel)| && Under(l, TreeList(t, l, rel)[i].rel) == k
    decreases MAX_DEPTH + 1 - |l.path| - |rel|
  {
    var at := Under(l, rel);
    i := 0;
    if k == at {
      ListHead(t, l, rel);
    } else {
      var name := k.path[|at.path|];
      StepDown(t, at, k);
      hide TreeList, Inside, Names;
      assert Under(l, rel + [name]) == Child(at, name) by { assert l.path + (rel + [name]) == l.path + rel + [name]; }
      var m := ListComplete(t, l, rel + [name], k);
      i := DeepHas(t, l, rel, name, m);
    }
  }

  lemma ListHead(t: Tree, l: Location, rel: seq<string>)
    ensures |TreeList(t, l, rel)| > 0 && TreeList(t, l, rel)[0] == EntryAt(t, l, rel) && EntryAt(t, l, rel).rel == rel
  {
  }

  lemma DeepHas(t: Tree, l: Location, rel: seq<string>, name: string, i: nat) returns (j: nat)
    requires |l.path| + |rel| <= MAX_DEPTH && Under(l, rel) in t && t[Under(l, rel)].Dir? && name in Names(t, Under(l, rel))
    requires i < |TreeList(t, l, rel + [name])|
    ensures j < |TreeList(t, l, rel)| && TreeList(t, l, rel)[j] == TreeList(t, l, rel + [name])[i]
  {
    hide EntryAt;
    var names := Listed(Names(t, Under(l, rel)));
    var m :| 0 <= m < |names| && names[m] == name;
    var k := AllHas(t, l, rel, names, m, i);
    j := k + 1;
    assert TreeList(t, l, rel) == [EntryAt(t, l, rel)] + ListAll(t, l, rel, names);
  }

  /** The next directory on the way from `at` down to `k`. */
  lemma StepDown(t: Tree, at: Location, k: Location)
    requires Closed(t) && k in t && Inside(at, k) && k != at
    ensures at in t && t[at].Dir? && k.path[|at.path|] in Names(t, at) && Inside(Child(at, k.path[|at.path|]), k)
  {
    var c := Child(at, k.path[|at.path|]);
    ClosedBoth(t);
    AncestorInClosed(ViewOf(t), k, |at.path|);
    assert Upto(k, |at.path|) == at;
    assert Upto(k, |at.path| + 1) == c;
    if |k.path| > |c.path| {
      AncestorInClosed(ViewOf(t), k, |c.path|);
    }
    ChildOfParent(at, k.path[|at.path|]);
  }

  lemma {:induction false} AllHas(t: Tree, l: Location, rel: seq<string>, names: seq<string>, m: nat, i: nat)
    returns (j: nat)
    requires |l.path| + |rel| <= MAX_DEPTH && m < |names| && i < |TreeList(t, l, rel + [names[m]])|
    ensures j < |ListAll(t, l, rel, names)| && ListAll(t, l, rel, names)[j] == TreeList(t, l, rel + [names[m]])[i]
    decreases m
  {
    if m == 0 {
      j := i;
    } else {
      var k := AllHas(t, l, rel, names[1..], m - 1, i);
      j := |TreeList(t, l, rel + [names[0]])| + k;
    }
  }

  /** Everything listed below a plain location is there, and plain. */
  lemma {:induction false} ListPlain(t: Tree, l: Location, rel: seq<string>)
    requires Plain(t, l, rel)
    ensures forall e <- TreeList(t, l, rel) :: Under(l, e.rel) in t && !t[Under(l, e.rel)].Link?
    decreases MAX_DEPTH + 1 - |l.path| - |rel|, 1, 0
  {
    if t[Under(l, rel)].Dir? {
      AllPlain(t, l, rel, Listed(Names(t, Under(l, rel))));
    }
  }

  lemma {:induction false} AllPlain(t: Tree, l: Location, rel: seq<string>, names: seq<string>)
    requires |l.path| + |rel| <= MAX_DEPTH && forall name <- names :: Plain(t, l, rel + [name])
    ensures forall e <- ListAll(t, l, rel, names) :: Under(l, e.rel) in t && !t[Under(l, e.rel)].Link?
    decreases MAX_DEPTH + 1 - |l.path| - |rel|, 0, |names|
  {
    if names != [] {
      ListPlain(t, l, rel + [names[0]]);
      AllPlain(t, l, rel, names[1..]);
    }
  }
}
