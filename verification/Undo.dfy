/**
 Undo plans (internal/agentinterop/apply.go:261-322) and the round trip of apply and undo.
 */
module Undoing {
  import opened Options
  import opened FileTree
  import opened Effects
  import opened Transaction
  import opened Execution
  import opened Planner

  /** The After image that puts a Before image back. */
  function Restored(before: Image): Image {
    before.(identity := None, blob := None)
  }

  /** `us` takes back the first `k` effects of `es`, last one first, down to effect `i`. */
  ghost predicate TakesBack(v: View, es: seq<Effect>, k: nat, i: nat, us: seq<Effect>) {
    && i <= k <= |es| && |us| == k - i
    && forall j :: 0 <= j < |us| ==> us[j].loc == es[k - 1 - j].loc && Goal(us[j]) == At(v, es[k - 1 - j].loc)
  }

  lemma SupportedReversed(before: Kind, after: Kind)
    requires Supported(before, after)
    ensures Supported(after, before)
  {
  }

  /** Undoing one effect leads back to the contents before it. */
  lemma OneBack(v: View, es: seq<Effect>, i: nat)
    requires i < |es| && forall a, b :: 0 <= a < b < |es| ==> es[a].loc != es[b].loc
    ensures Put(ViewAt(v, es, i + 1), es[i].loc, At(v, es[i].loc)) == ViewAt(v, es, i)
  {
    ViewUntouched(v, es, i, es[i].loc);
  }

  lemma BeforeIsDraft(t: Tree, e: Effect)
    requires EffectOk(t, e)
    ensures Draft(Restored(e.before)) && Wanted(Restored(e.before), Payload(e.before)) == At(ViewOf(t), e.loc)
    ensures (e.before.kind == Absent <==> At(ViewOf(t), e.loc) == None)
  {
  }

  /** While the planned entry is in place, the step back is a supported step that changes the content. */
  lemma StepBackSupported(start: Tree, t: Tree, e: Effect)
    requires EffectOk(start, e) && At(ViewOf(t), e.loc) == Goal(e)
    ensures Supported(KindAt(t, e.loc), e.before.kind)
    ensures !SameContent(ImageAt(t, e.loc), Filled(Restored(e.before), Payload(e.before)))
  {
    SupportedReversed(e.before.kind, e.after.kind);
    assert KindAt(t, e.loc) == e.after.kind;
    if e.before.kind == FileKind == e.after.kind {
      assert ImageAt(t, e.loc).digest == e.after.digest;
    }
  }

  /** The undo run passes back through the very contents the original run went through. */
  lemma {:induction false} Rewinds(v: View, es: seq<Effect>, k: nat, us: seq<Effect>, j: nat)
    requires TakesBack(v, es, k, 0, us) && j <= k
    requires forall a, b :: 0 <= a < b < |es| ==> es[a].loc != es[b].loc
    ensures ViewAt(ViewAt(v, es, k), us, j) == ViewAt(v, es, k - j)
  {
    hide *;
    TakesBackSize(v, es, k, us);
    if j == 0 {
      NoneBack(ViewAt(v, es, k), us);
    } else {
      Rewinds(v, es, k, us, j - 1);
      StepTakenBack(v, es, k, us, j - 1, ViewAt(v, es, k));
      OneBack(v, es, k - j);
    }
  }

  lemma NoneBack(v: View, us: seq<Effect>)
    ensures ViewAt(v, us, 0) == v
  {
  }

  lemma StepTakenBack(v: View, es: seq<Effect>, k: nat, us: seq<Effect>, j: nat, w: View)
    requires TakesBack(v, es, k, 0, us) && j < k
    ensures j < |us| && ViewAt(w, us, j + 1) == Put(ViewAt(w, us, j), es[k - 1 - j].loc, At(v, es[k - 1 - j].loc))
  {
    hide At, Goal, Put;
  }

  lemma BackToStart(v: View, es: seq<Effect>)
    ensures ViewAt(v, es, 0) == v
  {
  }

  lemma TakesBackSize(v: View, es: seq<Effect>, k: nat, us: seq<Effect>)
    requires TakesBack(v, es, k, 0, us)
    ensures |us| == k <= |es|
  {
  }

  /** Undo of any confirmed prefix: after `j` of its effects the tree holds what the original run held
      `j` effects before that prefix, and in the end exactly what it held at the start, at every path. */
  lemma RoundTrip(start: Disk, r: Record, now: Disk, u: Record, j: nat)
    requires Built(start.tree, r) && r.completed <= |r.effects|
    requires ViewOf(now.tree) == ViewAt(ViewOf(start.tree), r.effects, r.completed)
    requires Built(now.tree, u) && TakesBack(ViewOf(start.tree), r.effects, r.completed, 0, u.effects)
    requires j <= |u.effects|
    ensures ViewOf(RunTo(now, u.effects, j).tree) == ViewAt(ViewOf(start.tree), r.effects, r.completed - j)
    ensures j == |u.effects| ==> ViewOf(RunTo(now, u.effects, j).tree) == ViewOf(start.tree)
  {
    hide *;
    BuiltParts(start.tree, r);
    BuiltParts(now.tree, u);
    TakesBackSize(ViewOf(start.tree), r.effects, r.completed, u.effects);
    BackToStart(ViewOf(start.tree), r.effects);
    PrefixState(now, u.effects, j);
    Rewinds(ViewOf(start.tree), r.effects, r.completed, u.effects, j);
  }

  // ---------------------------------------------------------------- undoing on any later tree

  /** Each location that the confirmed effects named still shows what they made of it; the rest of the tree is free. */
  ghost predicate Intact(tree: Tree, r: Record)
    requires r.completed <= |r.effects|
  {
    forall j :: 0 <= j < r.completed ==> At(ViewOf(tree), r.effects[j].loc) == Goal(r.effects[j])
  }

  predicate Touches(r: Record, l: Location)
    requires r.completed <= |r.effects|
  {
    exists j :: 0 <= j < r.completed && r.effects[j].loc == l
  }

  /** Effect `i` replaced or removed something: its parent is a directory, or one that the undo puts back. */
  predicate HasParent(tree: Tree, r: Record, i: nat)
    requires i < r.completed <= |r.effects|
  {
    var l := r.effects[i].loc;
    l.path != [] && r.effects[i].before.kind != Absent ==> Touches(r, Parent(l)) || IsDir(At(ViewOf(tree), Parent(l)))
  }

  /** Effect `i` created something: nobody else put anything below it. */
  ghost predicate HasOwnOnly(tree: Tree, r: Record, i: nat)
    requires i < r.completed <= |r.effects|
  {
    r.effects[i].before.kind == Absent ==>
      forall c :: Below(tree, r.effects[i].loc, c) ==> Touches(r, c)
  }

  predicate Below(tree: Tree, l: Location, c: Location) {
    c in tree && c.path != [] && Parent(c) == l
  }

  /** Everything can go back where it was. */
  ghost predicate Returns(tree: Tree, r: Record)
    requires r.completed <= |r.effects|
  {
    forall i :: 0 <= i < r.completed ==> HasParent(tree, r, i) && HasOwnOnly(tree, r, i)
  }

  lemma BackDistinct(v: View, es: seq<Effect>, k: nat, us: seq<Effect>)
    requires TakesBack(v, es, k, 0, us) && forall a, b :: 0 <= a < b < |es| ==> es[a].loc != es[b].loc
    ensures forall a, b :: 0 <= a < b < |us| ==> us[a].loc != us[b].loc
  {
    forall a, b | 0 <= a < b < |us|
      ensures us[a].loc != us[b].loc
    {
      assert us[a].loc == es[k - 1 - a].loc && us[b].loc == es[k - 1 - b].loc;
    }
  }

  /** After `j` steps back the locations of the last `j` effects show what they did at the start, the others what they did. */
  lemma BackAt(v: View, es: seq<Effect>, k: nat, us: seq<Effect>, w: View, j: nat, l: Location)
    requires TakesBack(v, es, k, 0, us) && j <= k && forall a, b :: 0 <= a < b < |es| ==> es[a].loc != es[b].loc
    ensures (forall h :: k - j <= h < k ==> es[h].loc != l) ==> At(ViewAt(w, us, j), l) == At(w, l)
    ensures forall h :: k - j <= h < k && es[h].loc == l ==> At(ViewAt(w, us, j), l) == At(v, l)
  {
    BackDistinct(v, es, k, us);
    hide ViewAt, At, Goal;
    if forall h :: k - j <= h < k ==> es[h].loc != l {
      forall m | 0 <= m < j
        ensures us[m].loc != l
      {
        assert us[m].loc == es[k - 1 - m].loc;
      }
      ViewUntouched(w, us, j, l);
    }
    forall h | k - j <= h < k && es[h].loc == l
      ensures At(ViewAt(w, us, j), l) == At(v, l)
    {
      var m: nat := k - 1 - h;
      assert us[m].loc == l;
      ViewTouched(w, us, j, m);
    }
  }

  /** What the start, the effects and their Before images say of one location. */
  lemma StartFacts(start: Tree, es: seq<Effect>, h: nat)
    requires PlanOk(start, es) && h < |es|
    ensures es[h].loc.path != [] && (es[h].before.kind == Absent <==> At(ViewOf(start), es[h].loc) == None)
    ensures Supported(es[h].before.kind, es[h].after.kind) && (IsDir(Goal(es[h])) <==> es[h].after.kind == DirKind)
    ensures At(ViewAt(ViewOf(start), es, h), es[h].loc) == At(ViewOf(start), es[h].loc)
    ensures At(ViewAt(ViewOf(start), es, h + 1), es[h].loc) == Goal(es[h])
  {
    assert EffectOk(start, es[h]);
    OneEffect(ViewOf(start), es, h, h);
    OneEffect(ViewOf(start), es, h + 1, h);
  }

  /** A closed view has a directory above each of its entries. */
  lemma DirAbove(v: View, l: Location)
    requires ClosedView(v) && At(v, l) != None && l.path != []
    ensures IsDir(At(v, Parent(l)))
  {
    assert HangsIn(v, l);
  }

  /** An entry put back hangs in a directory. */
  lemma PutBackHangs(start: Tree, tree: Tree, r: Record, us: seq<Effect>, j: nat, h: nat)
    requires Closed(start) && PlanOk(start, r.effects) && j <= r.completed <= |r.effects| && Intact(tree, r)
    requires TakesBack(ViewOf(start), r.effects, r.completed, 0, us) && r.completed - j <= h < r.completed
    requires HasParent(tree, r, h) && At(ViewOf(start), r.effects[h].loc) != None
    ensures r.effects[h].loc.path != [] && IsDir(At(ViewAt(ViewOf(tree), us, j), Parent(r.effects[h].loc)))
  {
    var es, k, l := r.effects, r.completed, r.effects[h].loc;
    StartFacts(start, es, h);
    ClosedBoth(start);
    assert ClosedView(ViewAt(ViewOf(start), es, h));
    hide PlanOk, ViewAt, At, ClosedView, TakesBack, Goal;
    var p := Parent(l);
    assert forall a, b :: 0 <= a < b < |es| ==> es[a].loc != es[b].loc by { DistinctPlaces(start, es); }
    BackAt(ViewOf(start), es, k, us, ViewOf(tree), j, p);
    DirAbove(ViewOf(start), l);
    if Touches(r, p) {
      var g :| 0 <= g < k && es[g].loc == p;
      if g < k - j {
        DirAbove(ViewAt(ViewOf(start), es, h), l);
        OneEffect(ViewOf(start), es, h, g);
        OtherNames(es, k, j, g);
      }
    } else {
      assert forall x :: 0 <= x < k ==> es[x].loc != p;
    }
  }

  lemma DistinctPlaces(t: Tree, es: seq<Effect>)
    requires PlanOk(t, es)
    ensures forall a, b :: 0 <= a < b < |es| ==> es[a].loc != es[b].loc
  {
  }

  lemma OtherNames(es: seq<Effect>, k: nat, j: nat, g: nat)
    requires j <= k <= |es| && g < k - j && forall a, b :: 0 <= a < b < |es| ==> es[a].loc != es[b].loc
    ensures forall h :: k - j <= h < k ==> es[h].loc != es[g].loc
  {
  }

  /** An entry that has not been undone yet hangs in a directory. */
  lemma StillHangs(start: Tree, tree: Tree, r: Record, us: seq<Effect>, j: nat, l: Location)
    requires Closed(start) && PlanOk(start, r.effects) && Closed(tree) && j <= r.completed <= |r.effects| && Intact(tree, r)
    requires TakesBack(ViewOf(start), r.effects, r.completed, 0, us)
    requires forall i :: 0 <= i < r.completed ==> HasOwnOnly(tree, r, i)
    requires l in tree && l.path != [] && forall h :: r.completed - j <= h < r.completed ==> r.effects[h].loc != l
    ensures IsDir(At(ViewAt(ViewOf(tree), us, j), Parent(l)))
  {
    var es, k, p := r.effects, r.completed, Parent(l);
    DistinctPlaces(start, es);
    BackAt(ViewOf(start), es, k, us, ViewOf(tree), j, p);
    ClosedBoth(tree);
    DirAbove(ViewOf(tree), l);
    hide ViewAt, At, ClosedView, TakesBack, Goal, PlanOk;
    if g :| k - j <= g < k && es[g].loc == p {
      StartFacts(start, es, g);
      assert At(ViewOf(tree), p) == Goal(es[g]);
      assert HasOwnOnly(tree, r, g) && Below(tree, p, l);
      var h :| 0 <= h < k && es[h].loc == l;
      assert h < k - j <= g;
      ChildComesLater(start, es, g, h);
    }
  }

  /** What is created below a directory that is itself created comes after it. */
  lemma ChildComesLater(start: Tree, es: seq<Effect>, g: nat, h: nat)
    requires Closed(start) && PlanOk(start, es) && g < |es| && h < |es| && es[g].before.kind == Absent
    requires es[h].loc.path != [] && Parent(es[h].loc) == es[g].loc
    ensures g < h
  {
    hide *;
    StartFacts(start, es, g);
    StartFacts(start, es, h);
    ClosedBoth(start);
    DistinctPlaces(start, es);
    if h == g {
      ParentIsOther(es[h].loc);
    } else if h < g {
      OneEffect(ViewOf(start), es, h + 1, g);
      NoDir();
      if At(ViewOf(start), es[h].loc) != None {
        DirAbove(ViewOf(start), es[h].loc);
      } else {
        CreatesOrNot(start, es, h);
        ViewsClosed(start, es, h + 1);
        DirAbove(ViewAt(ViewOf(start), es, h + 1), es[h].loc);
      }
    }
  }

  lemma ParentIsOther(l: Location)
    requires l.path != []
    ensures Parent(l) != l
  {
    assert |Parent(l).path| < |l.path|;
  }

  lemma NoDir()
    ensures !IsDir(None)
  {
  }

  lemma ViewsClosed(start: Tree, es: seq<Effect>, k: nat)
    requires PlanOk(start, es) && k <= |es|
    ensures ClosedView(ViewAt(ViewOf(start), es, k))
  {
  }

  /** An effect over nothing creates something. */
  lemma CreatesOrNot(start: Tree, es: seq<Effect>, h: nat)
    requires PlanOk(start, es) && h < |es| && es[h].before.kind == Absent
    ensures Goal(es[h]) != None
  {
    assert EffectOk(start, es[h]);
  }

  /** If everything can go back, every view on the way is a tree. */
  lemma BackIsClosed(start: Tree, tree: Tree, r: Record, us: seq<Effect>, j: nat)
    requires Closed(start) && PlanOk(start, r.effects) && Closed(tree) && j <= r.completed <= |r.effects| && Intact(tree, r)
    requires TakesBack(ViewOf(start), r.effects, r.completed, 0, us) && Returns(tree, r)
    ensures ClosedView(ViewAt(ViewOf(tree), us, j))
  {
    var v := ViewAt(ViewOf(tree), us, j);
    DistinctPlaces(start, r.effects);
    hide ViewAt, TakesBack, Goal, PlanOk, Intact, HasParent, HasOwnOnly;
    forall l {:trigger HangsIn(v, l)} | l in v
      ensures HangsIn(v, l)
    {
      BackAt(ViewOf(start), r.effects, r.completed, us, ViewOf(tree), j, l);
      if l.path != [] {
        if h :| r.completed - j <= h < r.completed && r.effects[h].loc == l {
          assert HasParent(tree, r, h);
          PutBackHangs(start, tree, r, us, j, h);
        } else {
          StillHangs(start, tree, r, us, j, l);
        }
      }
    }
  }

  /** If every view on the way is a tree, everything can go back. */
  lemma ClosedIsBack(start: Tree, tree: Tree, r: Record, us: seq<Effect>, i: nat)
    requires Closed(start) && PlanOk(start, r.effects) && Closed(tree) && i < r.completed <= |r.effects| && Intact(tree, r)
    requires TakesBack(ViewOf(start), r.effects, r.completed, 0, us)
    requires ClosedView(ViewAt(ViewOf(tree), us, r.completed - i))
    ensures HasParent(tree, r, i) && HasOwnOnly(tree, r, i)
  {
    hide *;
    TakesBackSize(ViewOf(start), r.effects, r.completed, us);
    var k, l, j: nat := r.completed, r.effects[i].loc, r.completed - i;
    var v := ViewAt(ViewOf(tree), us, j);
    StartFacts(start, r.effects, i);
    DistinctPlaces(start, r.effects);
    BackAt(ViewOf(start), r.effects, k, us, ViewOf(tree), j, l);
    if r.effects[i].before.kind != Absent {
      DirAbove(v, l);
      BackAt(ViewOf(start), r.effects, k, us, ViewOf(tree), j, Parent(l));
      TouchesIs(r, Parent(l));
    } else {
      NoDir();
      forall c | Below(tree, l, c)
        ensures Touches(r, c)
      {
        BackAt(ViewOf(start), r.effects, k, us, ViewOf(tree), j, c);
        BelowIs(tree, l, c);
        InView(tree, c);
        TouchesIs(r, c);
        if !Touches(r, c) {
          DirAbove(v, c);
        }
      }
    }
    ConditionsAre(tree, r, i);
  }

  lemma TouchesIs(r: Record, l: Location)
    requires r.completed <= |r.effects|
    ensures Touches(r, l) <==> exists j :: 0 <= j < r.completed && r.effects[j].loc == l
  {
  }

  lemma BelowIs(t: Tree, l: Location, c: Location)
    ensures Below(t, l, c) <==> c in t && c.path != [] && Parent(c) == l
  {
  }

  lemma ConditionsAre(tree: Tree, r: Record, i: nat)
    requires i < r.completed <= |r.effects|
    ensures var l := r.effects[i].loc;
      && (HasParent(tree, r, i) <==>
            (l.path != [] && r.effects[i].before.kind != Absent ==> Touches(r, Parent(l)) || IsDir(At(ViewOf(tree), Parent(l)))))
      && (HasOwnOnly(tree, r, i) <==>
            (r.effects[i].before.kind == Absent ==> forall c :: Below(tree, l, c) ==> Touches(r, c)))
  {
    hide Touches, Below, IsDir, At, ViewOf;
  }

  lemma InView(t: Tree, l: Location)
    ensures At(ViewOf(t), l) != None <==> l in t
  {
  }

  /** Steps back are always transitions `publish` supports. */
  lemma BackSupported(start: Tree, tree: Tree, r: Record, us: seq<Effect>, planned: map<Location, Image>, j: nat)
    requires PlanOk(start, r.effects) && r.completed <= |r.effects| && Intact(tree, r) && Consistent(tree, us, planned)
    requires TakesBack(ViewOf(start), r.effects, r.completed, 0, us) && j < |us|
    ensures Supported(us[j].before.kind, us[j].after.kind)
  {
    hide *;
    var e := BackOf(start, r, us, j);
    EffectsGood(start, r.effects, r.completed - 1 - j);
    ShownIs(tree, r, r.completed - 1 - j);
    StepBackSupported(start, tree, e);
    BeforeIsDraft(start, e);
    KindThere(tree, us, planned, j);
    KindsAgree(us[j], e.before);
  }

  lemma BackOf(start: Tree, r: Record, us: seq<Effect>, j: nat) returns (e: Effect)
    requires r.completed <= |r.effects| && TakesBack(ViewOf(start), r.effects, r.completed, 0, us) && j < |us|
    ensures j < r.completed && e == r.effects[r.completed - 1 - j] && us[j].loc == e.loc && Goal(us[j]) == At(ViewOf(start), e.loc)
  {
    e := r.effects[r.completed - 1 - j];
    hide Goal, At;
  }

  lemma KindThere(tree: Tree, us: seq<Effect>, planned: map<Location, Image>, j: nat)
    requires Consistent(tree, us, planned) && j < |us|
    ensures us[j].before.kind == KindAt(tree, us[j].loc)
  {
    assert EffectFits(tree, us[j]);
    hide ValidLocation, Normal, Stored;
  }

  lemma KindsAgree(u: Effect, before: Image)
    requires Goal(u) == Wanted(Restored(before), Payload(before))
    ensures u.after.kind == before.kind
  {
  }

  /**
   The exact condition: the steps back can all be carried out one after another if and only if everything that
   was replaced or removed has a directory to go back to, or one that goes back before it, and nobody else has put
   anything into a directory that is to go.
   */
  lemma ReturnsIff(start: Tree, tree: Tree, r: Record, us: seq<Effect>, planned: map<Location, Image>)
    requires Closed(start) && PlanOk(start, r.effects) && Closed(tree) && r.completed <= |r.effects| && Intact(tree, r)
    requires TakesBack(ViewOf(start), r.effects, r.completed, 0, us) && Consistent(tree, us, planned)
    ensures (Plannable(tree, us) <==> Returns(tree, r)) && EachGood(tree, us)
  {
    hide *;
    TakesBackSize(ViewOf(start), r.effects, r.completed, us);
    forall j | 0 <= j < |us|
      ensures Supported(us[j].before.kind, us[j].after.kind)
    {
      BackSupported(start, tree, r, us, planned, j);
    }
    PlannableIsOk(tree, us, planned);
    if Returns(tree, r) {
      forall j | 0 <= j <= |us|
        ensures ClosedView(ViewAt(ViewOf(tree), us, j))
      {
        BackIsClosed(start, tree, r, us, j);
      }
      PlannableFrom(tree, us);
    }
    if Plannable(tree, us) {
      forall i | 0 <= i < r.completed
        ensures HasParent(tree, r, i) && HasOwnOnly(tree, r, i)
      {
        PlannableGives(tree, us, r.completed - i);
        ClosedIsBack(start, tree, r, us, i);
      }
      ReturnsIs(tree, r);
    }
  }

  lemma PlannableFrom(tree: Tree, us: seq<Effect>)
    requires forall i :: 0 <= i < |us| ==> Supported(us[i].before.kind, us[i].after.kind)
    requires forall k :: 0 <= k <= |us| ==> ClosedView(ViewAt(ViewOf(tree), us, k))
    ensures Plannable(tree, us)
  {
    hide Supported, ClosedView;
  }

  lemma PlannableGives(tree: Tree, us: seq<Effect>, k: nat)
    requires Plannable(tree, us) && k <= |us|
    ensures ClosedView(ViewAt(ViewOf(tree), us, k))
  {
    hide Supported, ClosedView;
  }

  lemma ReturnsIs(tree: Tree, r: Record)
    requires r.completed <= |r.effects|
    ensures Returns(tree, r) <==> forall i :: 0 <= i < r.completed ==> HasParent(tree, r, i) && HasOwnOnly(tree, r, i)
  {
    hide HasParent, HasOwnOnly;
  }

  /** Every location the confirmed effects named can be planned again. */
  ghost predicate Unobstructed(t: Tree, r: Record, i: nat)
    requires i <= r.completed <= |r.effects|
  {
    forall j :: i <= j < r.completed ==> !Obstructed(t, r.effects[j].loc)
  }

  ghost predicate UndoStands(t: Tree, r: Record)
    requires r.completed <= |r.effects|
  {
    UndoAccepts(r) && RootsHold(t, r.roots) && PostsHold(t, r)
  }

  /** The tree holds the contents of the confirmed prefix. */
  ghost predicate AtPrefix(start: Tree, t: Tree, r: Record)
    requires r.completed <= |r.effects|
  {
    ViewOf(t) == ViewAt(ViewOf(start), r.effects, r.completed)
  }

  /** No effect still to be undone has been planned. */
  ghost predicate FreeBelow(planned: map<Location, Image>, r: Record, i: nat)
    requires i <= |r.effects|
  {
    forall j :: 0 <= j < i ==> r.effects[j].loc !in planned
  }

  lemma UndoReady(start: Tree, r: Record, tree: Tree, i: nat)
    requires Built(start, r) && i < r.completed <= |r.effects| && UndoStands(tree, r)
    ensures var e := r.effects[i]; Draft(Restored(e.before)) && e.loc.path != [] && ValidLocation(e.loc) && RootIsDir(tree, e.loc)
  {
    var e := r.effects[i];
    assert EffectOk(start, e) && e.loc.root in r.roots;
    BeforeIsDraft(start, e);
  }

  lemma StepRefused(tree: Tree, r: Record, i: nat, p: Problem, planned: map<Location, Image>)
    requires i < r.completed <= |r.effects| && FreeBelow(planned, r, i + 1)
    requires var l := r.effects[i].loc; l.path != [] && ValidLocation(l) && RootIsDir(tree, l)
    requires p == Overlap ==> r.effects[i].loc in planned
    requires p == Collision || p == Unreadable ==> Obstructed(tree, r.effects[i].loc)
    requires p in {Unreadable, Limit, Overlap, Collision}
    ensures p != Limit ==> !Unobstructed(tree, r, 0)
  {
    hide Obstructed;
  }

  lemma StepTaken(tree: Tree, r: Record, i: nat, before: map<Location, Image>, after: map<Location, Image>, start: Tree)
    requires Built(start, r) && i < r.completed <= |r.effects|
    requires FreeBelow(before, r, i + 1) && Unobstructed(tree, r, i + 1) && !Obstructed(tree, r.effects[i].loc)
    requires forall k {:trigger k in after} :: k in after ==> k in before || k == r.effects[i].loc
    ensures FreeBelow(after, r, i) && Unobstructed(tree, r, i)
  {
    hide Obstructed, EffectOk, GuardsOk;
  }

  /** On a tree where the effects still show, undoing effect `i` plans one more step back. */
  lemma StepPlanned(start: Tree, tree: Tree, r: Record, i: nat, us: seq<Effect>)
    requires PlanOk(start, r.effects) && i < r.completed <= |r.effects| && Intact(tree, r)
    requires TakesBack(ViewOf(start), r.effects, r.completed, i + 1, us)
    ensures var e := r.effects[i];
            && Draft(Restored(e.before)) && !SameContent(ImageAt(tree, e.loc), Filled(Restored(e.before), Payload(e.before)))
            && TakesBack(ViewOf(start), r.effects, r.completed, i, us + [EffectFor(tree, e.loc, Restored(e.before), Payload(e.before))])
  {
    hide *;
    var e := r.effects[i];
    EffectsGood(start, r.effects, i);
    ShownIs(tree, r, i);
    BeforeIsDraft(start, e);
    StepBackSupported(start, tree, e);
    EffectForMeans(tree, e.loc, Restored(e.before), Payload(e.before));
    TakesBackMore(ViewOf(start), r.effects, r.completed, i, us, EffectFor(tree, e.loc, Restored(e.before), Payload(e.before)));
  }

  lemma EffectsGood(start: Tree, es: seq<Effect>, i: nat)
    requires PlanOk(start, es) && i < |es|
    ensures EffectOk(start, es[i])
  {
  }

  lemma ShownIs(tree: Tree, r: Record, i: nat)
    requires i < r.completed <= |r.effects| && Intact(tree, r)
    ensures At(ViewOf(tree), r.effects[i].loc) == Goal(r.effects[i])
  {
  }

  lemma EffectForMeans(tree: Tree, l: Location, after: Image, data: Bytes)
    requires Draft(after)
    ensures EffectFor(tree, l, after, data).loc == l && Goal(EffectFor(tree, l, after, data)) == Wanted(after, data)
  {
  }

  lemma TakesBackMore(start: View, es: seq<Effect>, k: nat, i: nat, us: seq<Effect>, u: Effect)
    requires i < k <= |es| && TakesBack(start, es, k, i + 1, us) && u.loc == es[i].loc && Goal(u) == At(start, u.loc)
    ensures TakesBack(start, es, k, i, us + [u])
  {
    hide Goal, At;
    forall j | 0 <= j < |us + [u]|
      ensures (us + [u])[j].loc == es[k - 1 - j].loc && Goal((us + [u])[j]) == At(start, es[k - 1 - j].loc)
    {
      if j < |us| {
        assert (us + [u])[j] == us[j];
      }
    }
  }

  /** The most that undoing effects `i` and up can read, and how often it can look. */
  function WeightFrom(tree: Tree, r: Record, i: nat): nat
    requires r.completed <= |r.effects|
    decreases r.completed - i
  {
    if i >= r.completed then 0 else Heft(tree, r.effects[i].loc) + WeightFrom(tree, r, i + 1)
  }

  function ReadsFrom(r: Record, i: nat): nat
    requires r.completed <= |r.effects|
    decreases r.completed - i
  {
    if i >= r.completed then 0 else Reads(r.effects[i].loc) + ReadsFrom(r, i + 1)
  }

  /** An undo that stays within the limits on bytes read, observations, effects and file size. */
  predicate Modest(tree: Tree, r: Record)
    requires r.completed <= |r.effects|
  {
    && WeightFrom(tree, r, 0) <= MAX_TOTAL && ReadsFrom(r, 0) <= 4 * MAX_FILES && r.completed <= 4 * MAX_FILES
    && forall i :: 0 <= i < r.completed ==> |Payload(r.effects[i].before)| <= MAX_BYTES
  }

  lemma {:induction false} FromStart(tree: Tree, r: Record, i: nat)
    requires i <= r.completed <= |r.effects|
    ensures WeightFrom(tree, r, i) <= WeightFrom(tree, r, 0) && ReadsFrom(r, i) <= ReadsFrom(r, 0)
    decreases i
  {
    hide Heft, Reads;
    if i > 0 {
      FromStart(tree, r, i - 1);
    }
  }

  lemma FromEnd(tree: Tree, r: Record)
    requires r.completed <= |r.effects|
    ensures WeightFrom(tree, r, r.completed) == 0 && ReadsFrom(r, r.completed) == 0
  {
  }

  lemma NextFrom(tree: Tree, r: Record, i: nat)
    requires i < r.completed <= |r.effects|
    ensures WeightFrom(tree, r, i) == Heft(tree, r.effects[i].loc) + WeightFrom(tree, r, i + 1)
    ensures ReadsFrom(r, i) == Reads(r.effects[i].loc) + ReadsFrom(r, i + 1)
    ensures Modest(tree, r) ==> |Payload(r.effects[i].before)| <= MAX_BYTES
    ensures Modest(tree, r) ==>
              WeightFrom(tree, r, i) <= MAX_TOTAL && ReadsFrom(r, i) <= 4 * MAX_FILES && r.completed <= 4 * MAX_FILES
  {
    hide Heft, Reads;
    FromStart(tree, r, i);
  }

  /** `Undo`: the reverse plan. Within the size limits it is refused exactly when the receipt no longer stands or a
      location is obstructed. `start` is the tree the receipt was planned on. Wherever the effects still show, and
      whatever else was changed since, the plan takes each of them back, and it can be carried out exactly when
      everything has a place to go back to. */
  method PlanUndo(tree: Tree, r: Record, id: Id, ghost start: Tree) returns (out: Result<Record>)
    requires Closed(tree) && Built(start, r) && r.completed <= |r.effects|
    ensures out != Err(Limit) ==> (out.Ok? <==> UndoStands(tree, r) && Unobstructed(tree, r, 0))
    ensures out == Err(Limit) ==> !Modest(tree, r)
    ensures out.Ok? ==> UndoStands(tree, r) && Unobstructed(tree, r, 0)
    ensures out.Ok? ==> ApplyAccepts(out.value) && out.value.mode == Undo && out.value.parent == Some(id) && Observes(tree, out.value)
    ensures out.Ok? && Intact(tree, r) ==>
              && TakesBack(ViewOf(start), r.effects, r.completed, 0, out.value.effects) && EachGood(tree, out.value.effects)
              && (Built(tree, out.value) <==> Returns(tree, r))
    ensures out.Ok? && AtPrefix(start, tree, r) ==>
              Built(tree, out.value) && TakesBack(ViewOf(start), r.effects, r.completed, 0, out.value.effects)
  {
    hide *;
    var bad := CheckReceipt(tree, r);
    if bad.Some? {
      return Err(bad.value);
    }
    var b := new Builder(tree);
    var i: nat := r.completed;
    UndoStarts(start, tree, r);
    FromEnd(tree, r);
    BuiltParts(start, r);
    while i > 0
      invariant i <= r.completed && fresh(b) && b.tree == tree && b.Valid()
      invariant Unobstructed(tree, r, i) && FreeBelow(b.planned, r, i)
      invariant b.total <= WeightFrom(tree, r, i) && |b.observed| <= ReadsFrom(r, i) && |b.effects| <= r.completed - i
      invariant Intact(tree, r) ==> TakesBack(ViewOf(start), r.effects, r.completed, i, b.effects)
    {
      i := i - 1;
      UndoReady(start, r, tree, i);
      NextFrom(tree, r, i);
      var e := r.effects[i];
      ghost var planned, effects := b.planned, b.effects;
      var changed := b.Change(e.loc, Restored(e.before), Payload(e.before));
      if changed.Err? {
        StepRefused(tree, r, i, changed.problem, planned);
        return Err(changed.problem);
      }
      StepTaken(tree, r, i, planned, b.planned, start);
      if Intact(tree, r) {
        StepPlanned(start, tree, r, i, effects);
      }
    }
    out := Ok(b.Saved(Undo, Some(id)));
    UndoSaved(b, id);
    b.SavedIs(Undo, Some(id));
    ObservesIs(tree, out.value);
    b.ValidIs();
    if Intact(tree, r) {
      ReturnsIff(start, tree, r, b.effects, b.planned);
    }
    if AtPrefix(start, tree, r) {
      PrefixReturns(start, tree, r);
    }
  }

  /** The guards are what the tree shows and cover all effects, and every recovery object is valid. */
  ghost predicate Observes(tree: Tree, u: Record) {
    GuardsOk(tree, u) && forall k :: 0 <= k < |u.effects| ==> Stored(u.effects[k].after).Some? && Stored(u.effects[k].before).Some?
  }

  lemma ObservesIs(tree: Tree, u: Record)
    requires GuardsOk(tree, u) && forall k :: 0 <= k < |u.effects| ==>
              Stored(u.effects[k].after).Some? && Stored(u.effects[k].before).Some?
    ensures Observes(tree, u)
  {
    hide GuardsOk, Stored;
  }

  /** On a tree that nobody else touched everything can go back. */
  lemma PrefixReturns(start: Tree, tree: Tree, r: Record)
    requires Built(start, r) && r.completed <= |r.effects| && AtPrefix(start, tree, r)
    ensures Intact(tree, r) && Returns(tree, r)
  {
    var es, k := r.effects, r.completed;
    BuiltParts(start, r);
    ClosedBoth(start);
    hide ViewAt, At, PlanOk, Goal, ClosedView, Built;
    forall i | 0 <= i < k
      ensures At(ViewOf(tree), es[i].loc) == Goal(es[i]) && HasParent(tree, r, i) && HasOwnOnly(tree, r, i)
    {
      OneEffect(ViewOf(start), es, k, i);
      StartFacts(start, es, i);
      var l := es[i].loc;
      if es[i].before.kind != Absent {
        DirAbove(ViewOf(start), l);
        if !Touches(r, Parent(l)) {
          ViewUntouched(ViewOf(start), es, k, Parent(l));
        }
      } else {
        forall c | Below(tree, l, c)
          ensures Touches(r, c)
        {
          InView(tree, c);
          if !Touches(r, c) {
            ViewUntouched(ViewOf(start), es, k, c);
            DirAbove(ViewOf(start), c);
            assert false;
          }
        }
      }
    }
  }

  lemma UndoStarts(start: Tree, tree: Tree, r: Record)
    requires r.completed <= |r.effects|
    ensures Unobstructed(tree, r, r.completed) && FreeBelow(map[], r, r.completed)
    ensures TakesBack(ViewOf(start), r.effects, r.completed, r.completed, [])
  {
  }

  lemma UndoSaved(b: Builder, id: Id)
    ensures var u := b.Saved(Undo, Some(id)); ApplyAccepts(u) && u.mode == Undo && u.parent == Some(id)
  {
  }

  method CheckReceipt(tree: Tree, r: Record) returns (bad: Option<Problem>)
    requires r.completed <= |r.effects|
    ensures bad == None <==> UndoStands(tree, r)
    ensures bad.Some? ==> bad.value in {Unconfirmed, NotApplied, Stale}
  {
    if r.inFlight != None {
      return Some(Unconfirmed);
    }
    if r.status != Applied && r.status != Partial {
      return Some(NotApplied);
    }
    return if RootsHold(tree, r.roots) && PostsHold(tree, r) then None else Some(Stale);
  }

  /** A record that can be undone counts exactly the effects that took place. */
  lemma SettledPrefix(start: Disk, plan: Record, r: Record, now: Disk, done: nat)
    requires Built(start.tree, plan) && SamePlan(r, plan) && done <= |plan.effects| && now == RunTo(start, plan.effects, done)
    requires UndoAccepts(r) ==> JournalMeans(r, done)
    ensures Closed(now.tree) && Built(start.tree, r) && |r.effects| == |plan.effects|
    ensures ViewOf(now.tree) == ViewAt(ViewOf(start.tree), plan.effects, done)
    ensures UndoAccepts(r) ==> r.completed == done && AtPrefix(start.tree, now.tree, r)
  {
    PrefixState(start, plan.effects, done);
    SameBuilt(start.tree, plan, r);
    SameViews(ViewOf(start.tree), r.effects, plan.effects, done);
  }

  lemma SamePlanFacts(a: Record, b: Record, v: View)
    requires SamePlan(a, b)
    ensures |a.effects| == |b.effects|
    ensures forall k :: 0 <= k <= |a.effects| ==> ViewAt(v, a.effects, k) == ViewAt(v, b.effects, k)
  {
    forall k | 0 <= k <= |a.effects|
      ensures ViewAt(v, a.effects, k) == ViewAt(v, b.effects, k)
    {
      SameViews(v, a.effects, b.effects, k);
    }
  }

  lemma UndoStatus(r: Record)
    ensures UndoAccepts(r) ==> r.inFlight == None && (r.status == Applied || r.status == Partial)
  {
  }

  lemma NoEdits()
    ensures Quiet([])
  {
  }

  datatype Ending = Unsettled(first: Outcome) | Unplanned(problem: Problem) | Ran(second: Outcome)

  /** The undo run may begin. */
  lemma UndoMayRun(t: Tree, store: map<Id, Record>, id: Id, undoId: Id)
    requires id in store && undoId in store && UndoAccepts(store[id])
    requires ApplyAccepts(store[undoId]) && store[undoId].parent == Some(id) && store[undoId].mode == Undo && Observes(t, store[undoId])
    ensures ReadyToRun(t, store, undoId)
  {
  }

  /** The location is one of those the last `done` confirmed effects named. */
  predicate WentBack(r: Record, done: nat, l: Location)
    requires done <= r.completed <= |r.effects|
  {
    exists h :: r.completed - done <= h < r.completed && r.effects[h].loc == l
  }

  /** What `done` steps back make of one location. */
  lemma BackThere(start: Tree, r: Record, us: seq<Effect>, w: View, done: nat, l: Location)
    requires PlanOk(start, r.effects) && r.completed <= |r.effects| && TakesBack(ViewOf(start), r.effects, r.completed, 0, us)
    requires done <= |us|
    ensures done <= r.completed && At(ViewAt(w, us, done), l) == At(if WentBack(r, done, l) then ViewOf(start) else w, l)
  {
    hide ViewAt, At, PlanOk;
    DistinctPlaces(start, r.effects);
    TakesBackSize(ViewOf(start), r.effects, r.completed, us);
    BackAt(ViewOf(start), r.effects, r.completed, us, w, done, l);
  }

  lemma FollowedThere(start: Disk, es: seq<Effect>, done: nat, seen: seq<Disk>, edits: seq<Option<Disk>>, now: Disk,
      l: Location)
    requires Follows(start, es, done, seen, edits, now) && LeftAlone(seen, edits, l)
    ensures done <= |es| && At(ViewOf(now.tree), l) == At(ViewAt(ViewOf(start.tree), es, done), l)
  {
    hide LeftAlone, At, ViewAt;
  }

  /** Undisturbed and with every write working, the run comes to its end exactly when the plan is a built one and fits. */
  lemma CompletesIff(d: Disk, u: Record)
    requires Closed(d.tree) && ApplyAccepts(u) && EachGood(d.tree, u.effects) && Observes(d.tree, u)
    ensures Passes(d, u.(status := Applying)) <==> Built(d.tree, u) && Fits(d, u.effects)
  {
    hide *;
    AcceptsFresh(u);
    ObservesGuards(d.tree, u);
    if Built(d.tree, u) {
      BuiltPlanRuns(d, u);
    }
    if Passes(d, u.(status := Applying)) {
      OnlyBuiltPasses(d, u);
    }
  }

  lemma AcceptsFresh(u: Record)
    requires ApplyAccepts(u)
    ensures u.completed == 0
  {
  }

  lemma ObservesGuards(t: Tree, u: Record)
    requires Observes(t, u)
    ensures GuardsOk(t, u)
  {
    hide GuardsOk;
  }

  lemma ReceiptStands(t: Tree, r: Record)
    requires r.completed <= |r.effects| && UndoStands(t, r)
    ensures UndoAccepts(r)
  {
  }

  lemma QuietlyAlone(seen: seq<Disk>)
    ensures Quiet([])
  {
  }

  /**
   The undo of a receipt from any tree on which its effects still show, whatever else was changed since, with any
   faults and others at work during the run. A location that the others leave alone is restored once its step back
   is done, and otherwise as it was; undisturbed and with every write working the undo completes exactly when
   everything has a place to go back to and the listing limit allows.
   */
  method UndoFrom(s: Service, id: Id, undoId: Id, ghost start: Tree, faults: seq<Fault>, edits: seq<Option<Disk>>)
    returns (end: Ending, ghost done: nat, ghost seen: seq<Disk>, ghost undo: seq<Effect>)
    requires id in s.store && undoId !in s.store && Closed(s.disk.tree)
    requires Built(start, s.store[id]) && s.store[id].completed <= |s.store[id].effects| && Intact(s.disk.tree, s.store[id])
    modifies s
    ensures id in s.store && s.store[id] == old(s.store)[id] && !end.Unsettled?
    ensures end.Unplanned? ==> s.disk == old(s.disk) && s.store == old(s.store)
    ensures end.Unplanned? && end.problem != Limit ==>
              !(UndoStands(old(s.disk.tree), old(s.store)[id]) && Unobstructed(old(s.disk.tree), old(s.store)[id], 0))
    ensures end == Unplanned(Limit) ==> !Modest(old(s.disk.tree), old(s.store)[id])
    ensures end.Ran? ==> done <= old(s.store)[id].completed
    ensures end == Ran(Completed) ==> done == old(s.store)[id].completed
    ensures end.Ran? ==> forall l :: LeftAlone(seen, edits, l) ==>
              At(ViewOf(s.disk.tree), l) ==
              At(if WentBack(old(s.store)[id], done, l) then ViewOf(start) else ViewOf(old(s.disk.tree)), l)
    ensures end.Ran? && edits == [] && Faultless(faults) ==>
              end.second == if Returns(old(s.disk.tree), old(s.store)[id]) && Fits(old(s.disk), undo) then Completed else Stopped
  {
    hide *;
    ghost var turn, r := s.disk, s.store[id];
    done, seen, undo := 0, [], [];
    var planned := PlanUndo(s.disk.tree, s.store[id], id, start);
    if planned.Err? {
      return Unplanned(planned.problem), done, seen, undo;
    }
    undo := planned.value.effects;
    s.store := s.store[undoId := planned.value];
    ReceiptStands(turn.tree, r);
    UndoMayRun(turn.tree, s.store, id, undoId);
    CompletesIff(turn, planned.value);
    BuiltParts(start, r);
    TakesBackSize(ViewOf(start), r.effects, r.completed, undo);
    var second;
    ghost var tries;
    second, done, tries, seen := s.Apply(undoId, faults, edits);
    SamePlanParts(s.store[undoId], planned.value);
    QuietlyAlone(seen);
    forall l | LeftAlone(seen, edits, l)
      ensures At(ViewOf(s.disk.tree), l) == At(if WentBack(r, done, l) then ViewOf(start) else ViewOf(turn.tree), l)
    {
      FollowedThere(turn, undo, done, seen, edits, s.disk, l);
      BackThere(start, r, undo, ViewOf(turn.tree), done, l);
    }
    FollowsWithin(turn, undo, done, seen, edits, s.disk);
    return Ran(second), done, seen, undo;
  }

  lemma FollowsWithin(start: Disk, es: seq<Effect>, done: nat, seen: seq<Disk>, edits: seq<Option<Disk>>, now: Disk)
    requires Follows(start, es, done, seen, edits, now)
    ensures done <= |es|
  {
    hide LeftAlone, At, ViewAt;
  }

  /** A plan is applied with any faults, its confirmed prefix is planned for undo, and the undo is applied
      with any faults: the contents are at the end those of some prefix of the plan, and those of the
      beginning once the undo completes. Faultless, it completes exactly when the listing limit allows. */
  method ApplyThenUndo(s: Service, id: Id, undoId: Id, faults: seq<Fault>, undoFaults: seq<Fault>)
    returns (end: Ending, ghost at: nat, ghost turn: Disk, ghost undo: Record)
    requires id in s.store && undoId !in s.store && ApplyAccepts(s.store[id]) && Built(s.disk.tree, s.store[id])
    modifies s
    ensures id in s.store && SamePlan(s.store[id], old(s.store)[id])
    ensures at <= |old(s.store)[id].effects|
    ensures ViewOf(s.disk.tree) == ViewAt(ViewOf(old(s.disk.tree)), old(s.store)[id].effects, at)
    ensures end == Ran(Completed) ==> ViewOf(s.disk.tree) == ViewOf(old(s.disk.tree))
    ensures end.Unsettled? ==> !UndoAccepts(s.store[id])
    ensures end.Unplanned? && end.problem != Limit ==>
              s.store[id].completed <= |s.store[id].effects|
                  && !(UndoStands(s.disk.tree, s.store[id]) && Unobstructed(s.disk.tree, s.store[id], 0))
    ensures end == Unplanned(Limit) ==>
              s.store[id].completed <= |s.store[id].effects| && !Modest(s.disk.tree, s.store[id])
    ensures end.Ran? && Faultless(undoFaults) ==> end.second == if Fits(turn, undo.effects) then Completed else Stopped
  {
    hide *;
    ghost var start, plan := s.disk, s.store[id];
    var first, done, tries, seen := s.Apply(id, faults, []);
    var r := s.store[id];
    NoEdits();
    SettledPrefix(start, plan, r, s.disk, done);
    at, turn, undo := done, s.disk, r;
    if !UndoAccepts(r) {
      return Unsettled(first), at, turn, undo;
    }
    UndoStatus(r);
    var planned := PlanUndo(s.disk.tree, r, id, start.tree);
    if planned.Err? {
      return Unplanned(planned.problem), at, turn, undo;
    }
    undo := planned.value;
    TakesBackSize(ViewOf(start.tree), r.effects, r.completed, undo.effects);
    s.store := s.store[undoId := planned.value];
    BuiltIsReady(turn.tree, s.store, undoId);
    BuiltPlanRuns(turn, undo);
    var second, back, tries', seen' := s.Apply(undoId, undoFaults, []);
    SamePlanFacts(s.store[undoId], undo, ViewOf(turn.tree));
    SamePlanFacts(r, plan, ViewOf(start.tree));
    RoundTrip(start, r, turn, undo, back);
    at := done - back;
    return Ran(second), at, turn, undo;
  }
}
