/**
 Concrete plans at the edges of the apply and undo guarantees: a directory that is already at the
 listing limit, and a name that has a sibling differing only in case.
 */
module Limits {
  import opened Options
  import opened FileTree
  import opened Effects
  import opened Transaction
  import opened Execution
  import opened Planner
  import opened Undoing

  const TOP := Location("/r", [])
  const BOX := Location("/r", ["d"])

  function Inside(name: string): Location {
    Location("/r", ["d", name])
  }

  function Digit(i: nat): char
    requires i < 16
  {
    ('a' as int + i) as char
  }

  function Name(i: nat): string
    requires i < 256
  {
    [Digit(i / 16), Digit(i % 16)]
  }

  /** A root with one directory that holds `n` empty files. */
  function Crowd(n: nat): Tree
    requires n <= 256
  {
    if n == 0 then map[TOP := Dir(0, 493), BOX := Dir(1, 493)]
    else Crowd(n - 1)[Inside(Name(n - 1)) := File(n + 1, 420, [])]
  }

  function Folk(n: nat): set<string>
    requires n <= 256
  {
    if n == 0 then {} else Folk(n - 1) + {Name(n - 1)}
  }

  lemma NameTells(i: nat, j: nat)
    requires i < j < 256
    ensures Name(i) != Name(j)
  {
    assert Name(i)[0] == Digit(i / 16) && Name(i)[1] == Digit(i % 16);
    assert Name(j)[0] == Digit(j / 16) && Name(j)[1] == Digit(j % 16);
  }

  lemma {:induction false} FolkSize(n: nat)
    requires n <= 256
    ensures |Folk(n)| == n
    ensures forall m: nat :: n <= m < 256 ==> Name(m) !in Folk(n)
    ensures forall x <- Folk(n) :: |x| == 2
  {
    if n > 0 {
      FolkSize(n - 1);
      forall m: nat | n <= m < 256
        ensures Name(m) !in Folk(n)
      {
        NameTells(n - 1, m);
      }
    }
  }

  lemma InsideBox(name: string)
    ensures Parent(Inside(name)) == BOX && Base(Inside(name)) == name && Inside(name) != TOP && Inside(name) != BOX
  {
    assert Inside(name).path[..1] == BOX.path;
  }

  /** One more name in the directory. */
  lemma NamesMore(t: Tree, name: string, n: Node)
    ensures Names(t[Inside(name) := n], BOX) == Names(t, BOX) + {name}
  {
    InsideBox(name);
    var u := t[Inside(name) := n];
    forall x | x in Names(t, BOX) + {name}
      ensures x in Names(u, BOX)
    {
      if x == name {
        assert Inside(name) in u;
      } else {
        var k :| k in t && k.path != [] && Parent(k) == BOX && Base(k) == x;
        assert k in u;
      }
    }
  }

  lemma NamesHave(t: Tree, name: string)
    ensures name in Names(t, BOX) <==> Inside(name) in t
  {
    InsideBox(name);
    if name in Names(t, BOX) {
      var k :| k in t && k.path != [] && Parent(k) == BOX && Base(k) == name;
      ChildOfParent(k, name);
      ChildOfParent(Inside(name), name);
    }
  }

  lemma ClosedMore(t: Tree, name: string, n: Node)
    requires Closed(t) && BOX in t && t[BOX].Dir? && !n.Dir? && Inside(name) !in t
    ensures Closed(t[Inside(name) := n])
  {
    InsideBox(name);
    var u := t[Inside(name) := n];
    forall k {:trigger Hangs(u, k)} | k in u
      ensures Hangs(u, k)
    {
      assert k in t ==> Hangs(t, k);
    }
  }

  lemma {:induction false} CrowdIs(n: nat)
    requires n <= 256
    ensures TOP in Crowd(n) && BOX in Crowd(n) && Crowd(n)[TOP] == Dir(0, 493) && Crowd(n)[BOX] == Dir(1, 493)
    ensures Closed(Crowd(n)) && Names(Crowd(n), BOX) == Folk(n)
  {
    if n > 0 {
      CrowdIs(n - 1);
      FolkSize(n - 1);
      var name := Name(n - 1);
      InsideBox(name);
      NamesHave(Crowd(n - 1), name);
      NamesMore(Crowd(n - 1), name, File(n + 1, 420, []));
      ClosedMore(Crowd(n - 1), name, File(n + 1, 420, []));
    }
  }

  function Creation(name: string): Effect {
    Effect(Inside(name), ABSENT, Image(FileKind, 420, None, OfBytes([]), Some([]), ""), None, false)
  }

  function PlanOf(t: Tree, es: seq<Effect>, done: nat): Record {
    Record(Copy, if done == 0 then Planned else Applied, map["/r" := 0], [Observation(BOX, ImageAt(t, BOX))], es, done, None, None)
  }

  /** Two creations in the directory of a closed tree that has neither name make a built plan. */
  lemma CreationsBuilt(t: Tree, es: seq<Effect>)
    requires Closed(t) && TOP in t && t[TOP] == Dir(0, 493) && BOX in t && t[BOX].Dir? && |Names(t, BOX)| <= MAX_FILES
    requires Inside("x") !in t && Inside("y") !in t
    requires es == [Creation("x")] || es == [Creation("x"), Creation("y")]
    ensures Built(t, PlanOf(t, es, 0)) && ApplyAccepts(PlanOf(t, es, 0))
  {
    InsideBox("x");
    InsideBox("y");
    ClosedBoth(t);
    SnapshotClosed(t, BOX);
    assert Inside("x").path[1] != Inside("y").path[1];
    var v := ViewOf(t);
    var e := Goal(Creation("x"));
    assert ViewAt(v, es, 0) == v;
    PutClosed(v, Inside("x"), e) by { LeafBelow(v, Inside("x")); }
    assert ViewAt(v, es, 1) == Put(v, Inside("x"), e);
    if |es| == 2 {
      var w := Put(v, Inside("x"), e);
      PutClosed(w, Inside("y"), e) by { LeafBelow(w, Inside("y")); }
      assert ViewAt(v, es, 2) == Put(w, Inside("y"), e);
    }
    CreationOk(t, "x");
    CreationOk(t, "y");
    GuardedBox(t, es);
  }

  lemma CreationOk(t: Tree, name: string)
    requires Inside(name) !in t && ValidComponent(name)
    ensures EffectOk(t, Creation(name))
  {
  }

  lemma GuardedBox(t: Tree, es: seq<Effect>)
    requires TOP in t && t[TOP] == Dir(0, 493) && Snapshot(t, BOX) == Some(ImageAt(t, BOX))
    requires forall i :: 0 <= i < |es| ==> es[i].loc.root == "/r" && |es[i].loc.path| == 2 && es[i].loc.path[0] == "d"
    ensures GuardsOk(t, PlanOf(t, es, 0))
  {
    var r := PlanOf(t, es, 0);
    forall i, n {:trigger Upto(es[i].loc, n)} | 0 <= i < |es| && 0 < n < |es[i].loc.path|
      ensures FirstGuard(r.guards, Upto(es[i].loc, n)).Some?
    {
      assert Upto(es[i].loc, n) == BOX;
    }
  }

  lemma FirstCreated(d: Disk, es: seq<Effect>)
    requires Closed(d.tree) && BOX in d.tree && d.tree[BOX].Dir? && Inside("x") !in d.tree
    requires |es| > 0 && es[0] == Creation("x")
    ensures RunTo(d, es, 1) == Insert(d, Inside("x"), File(d.next, 420, []))
  {
    InsideBox("x");
    WalkClosed(d.tree, BOX);
    assert RunTo(d, es, 0) == d;
  }

  /** A directory exactly at the listing limit, which one more file takes past it. */
  lemma CrowdPlusOne(n: nat) returns (d: Disk)
    requires n == MAX_FILES
    ensures Inside("x") !in d.tree && Inside("y") !in d.tree
    ensures Closed(d.tree) && TOP in d.tree && d.tree[TOP] == Dir(0, 493) && BOX in d.tree && d.tree[BOX].Dir?
    ensures |Names(d.tree, BOX)| == MAX_FILES
    ensures var t := Insert(d, Inside("x"), File(d.next, 420, [])).tree; Closed(t) && |Names(t, BOX)| == MAX_FILES + 1
  {
    d := Disk(Crowd(n), n + 2);
    hide *;
    CrowdIs(n);
    FolkSize(n);
    ShortName(n, "x");
    ShortName(n, "y");
    OneMore(d, "x");
  }

  lemma ShortName(n: nat, name: string)
    requires n <= 256 && |name| == 1 && Names(Crowd(n), BOX) == Folk(n)
    ensures Inside(name) !in Crowd(n)
  {
    FolkSize(n);
    NamesHave(Crowd(n), name);
  }

  lemma OneMore(d: Disk, name: string)
    requires Closed(d.tree) && BOX in d.tree && d.tree[BOX].Dir? && Inside(name) !in d.tree
    ensures var t := Insert(d, Inside(name), File(d.next, 420, [])).tree;
            Closed(t) && BOX in t && t[BOX].Dir? && |Names(t, BOX)| == |Names(d.tree, BOX)| + 1
  {
    NamesHave(d.tree, name);
    NamesMore(d.tree, name, File(d.next, 420, []));
    ClosedMore(d.tree, name, File(d.next, 420, []));
    InsideBox(name);
  }

  lemma Overfull(d: Disk, es: seq<Effect>)
    requires |es| == 2 && es[1].loc == Inside("y") && BOX in RunTo(d, es, 1).tree && RunTo(d, es, 1).tree[BOX].Dir?
    requires |Names(RunTo(d, es, 1).tree, BOX)| > MAX_FILES
    ensures !Fits(d, es)
  {
    assert Upto(es[1].loc, 1) == BOX;
    hide RunTo;
    assert !FitsAt(d, es, 1);
  }

  /** A plan that passes every check made before its first effect and still stops half way:
      its first file is the 257th entry of the directory its second one goes to. */
  lemma BuiltPlanCanStop() returns (d: Disk, r: Record)
    ensures Built(d.tree, r) && ApplyAccepts(r) && |r.effects| == 2
    ensures !Fits(d, r.effects) && !Passes(d, r.(status := Applying))
  {
    d := CrowdPlusOne(MAX_FILES);
    var es := [Creation("x"), Creation("y")];
    r := PlanOf(d.tree, es, 0);
    hide *;
    CreationsBuilt(d.tree, es);
    FirstCreated(d, es);
    OneMore(d, "x");
    Overfull(d, es) by { assert es[1] == Creation("y"); CreationAt("y"); }
    BuiltPlanRuns(d, r);
  }

  lemma CreationAt(name: string)
    ensures Creation(name).loc == Inside(name)
  {
  }

  /** A plan that runs to its end and cannot be undone: the undo has to list the overfull directory. */
  lemma AppliedPlanCanBeStuck() returns (d: Disk, r: Record)
    ensures Built(d.tree, r) && ApplyAccepts(r) && |r.effects| == 1 && Fits(d, r.effects)
    ensures !Unobstructed(RunTo(d, r.effects, 1).tree, r.(status := Applied, completed := 1), 0)
  {
    d := CrowdPlusOne(MAX_FILES);
    var es := [Creation("x")];
    r := PlanOf(d.tree, es, 0);
    CreationsBuilt(d.tree, es);
    FirstCreated(d, es);
    OneMore(d, "x");
    FitsOnce(d, es);
    StuckAbove(RunTo(d, es, 1).tree, "x");
    hide Obstructed, RunTo;
    assert Obstructed(RunTo(d, es, 1).tree, r.effects[0].loc);
  }

  lemma StuckAbove(t: Tree, name: string)
    requires Closed(t) && BOX in t && t[BOX].Dir? && |Names(t, BOX)| > MAX_FILES
    ensures Obstructed(t, Inside(name))
  {
    assert Upto(Inside(name), 1) == BOX;
    SnapshotClosed(t, BOX);
    assert Snapshot(t, Upto(Inside(name), 1)) == None;
  }

  lemma FitsOnce(d: Disk, es: seq<Effect>)
    requires es == [Creation("x")] && |Names(d.tree, BOX)| <= MAX_FILES
    requires RunTo(d, es, 1) == Insert(d, Inside("x"), File(d.next, 420, []))
    ensures Fits(d, es)
  {
    assert RunTo(d, es, 0) == d;
    forall n {:trigger Upto(es[0].loc, n)} | 0 < n < |es[0].loc.path|
      ensures Roomy(RunTo(d, es, 0).tree, Upto(es[0].loc, n))
    {
      assert Upto(es[0].loc, n) == BOX;
    }
    assert FitsAt(d, es, 0);
  }

  function Pair(): Tree {
    Crowd(0)[Inside("A") := File(2, 420, [])][Inside("a") := File(3, 420, [])]
  }

  const REMOVAL := Effect(Inside("a"), Image(FileKind, 420, Some(3), OfBytes([]), Some([]), ""), ABSENT, None, false)

  lemma PairIs()
    ensures var t := Pair();
            && Closed(t) && TOP in t && t[TOP] == Dir(0, 493) && BOX in t && t[BOX] == Dir(1, 493)
            && Inside("A") in t && Inside("a") in t && t[Inside("a")] == File(3, 420, []) && Names(t, BOX) == {"A", "a"}
  {
    CrowdIs(0);
    var t := Crowd(0)[Inside("A") := File(2, 420, [])];
    InsideBox("A");
    InsideBox("a");
    NamesMore(Crowd(0), "A", File(2, 420, []));
    ClosedMore(Crowd(0), "A", File(2, 420, []));
    NamesMore(t, "a", File(3, 420, []));
    assert Inside("a").path[1] != Inside("A").path[1];
    ClosedMore(t, "a", File(3, 420, []));
  }

  lemma RemovalBuilt(t: Tree)
    requires Closed(t) && TOP in t && t[TOP] == Dir(0, 493) && BOX in t && t[BOX].Dir? && |Names(t, BOX)| <= MAX_FILES
    requires Inside("a") in t && t[Inside("a")] == File(3, 420, [])
    ensures Built(t, PlanOf(t, [REMOVAL], 0)) && RunTo(Disk(t, 4), [REMOVAL], 1).tree == t - {Inside("a")}
  {
    InsideBox("a");
    ClosedBoth(t);
    SnapshotClosed(t, BOX);
    WalkClosed(t, BOX);
    var v := ViewOf(t);
    LeafBelow(v, Inside("a"));
    PutClosed(v, Inside("a"), None);
    assert ViewAt(v, [REMOVAL], 0) == v && ViewAt(v, [REMOVAL], 1) == Put(v, Inside("a"), None);
    assert EffectOk(t, REMOVAL);
    GuardedBox(t, [REMOVAL]);
    assert RunTo(Disk(t, 4), [REMOVAL], 0) == Disk(t, 4);
  }

  /** Where names differing only in case can stand side by side, removing one of them cannot be undone. */
  lemma CaseVariantCannotReturn() returns (d: Disk, r: Record)
    ensures Built(d.tree, r) && ApplyAccepts(r) && |r.effects| == 1
    ensures !Unobstructed(RunTo(d, r.effects, 1).tree, r.(status := Applied, completed := 1), 0)
  {
    d := Disk(Pair(), 4);
    r := PlanOf(d.tree, [REMOVAL], 0);
    PairIs();
    RemovalBuilt(d.tree);
    var t := d.tree - {Inside("a")};
    InsideBox("a");
    InsideBox("A");
    NamesHave(t, "A");
    assert Inside("a").path[1] != Inside("A").path[1];
    assert Fold("A") == Fold("a");
    assert Collides(t, Inside("a"));
    hide Collides, Unlistable, RunTo, Pair;
    assert Obstructed(t, r.effects[0].loc);
  }
}
