/**
 When a built plan runs to its end on the tree it was planned on
 (internal/agentinterop/apply.go:174-251 over plans from builder.go).
 */
module Execution {
  import opened Options
  import opened FileTree
  import opened Effects
  import opened Transaction

  /** The directory at `l`, if there is one, is within the listing limit of `snapshot`. */
  predicate Roomy(t: Tree, l: Location) {
    l in t && t[l].Dir? ==> |Names(t, l)| <= MAX_FILES
  }

  /** The directories that step `i` lists are within the limit when it lists them. */
  ghost predicate FitsAt(d: Disk, es: seq<Effect>, i: nat)
    requires i < |es|
  {
    && (forall n {:trigger Upto(es[i].loc, n)} :: 0 < n < |es[i].loc.path| ==> Roomy(RunTo(d, es, i).tree, Upto(es[i].loc, n)))
    && (forall j :: 0 <= j <= i ==> Roomy(RunTo(d, es, i + 1).tree, es[j].loc))
  }

  ghost predicate Fits(d: Disk, es: seq<Effect>) {
    forall i :: 0 <= i < |es| ==> FitsAt(d, es, i)
  }

  /** The observations of a built plan: accurate, and covering every ancestor of every effect. */
  ghost predicate GuardsOk(t: Tree, r: Record) {
    && (forall k :: 0 <= k < |r.guards| ==> Snapshot(t, r.guards[k].loc) == Some(r.guards[k].image))
    && (forall i, n {:trigger Upto(r.effects[i].loc, n)} :: 0 <= i < |r.effects| && 0 < n < |r.effects[i].loc.path| ==>
          FirstGuard(r.guards, Upto(r.effects[i].loc, n)).Some?)
    && RootsHold(t, r.roots)
    && (forall i :: 0 <= i < |r.effects| ==> r.effects[i].loc.root in r.roots)
  }

  ghost predicate Built(t: Tree, r: Record) {
    Closed(t) && PlanOk(t, r.effects) && GuardsOk(t, r)
  }

  /** Each confirmed image is exactly what is on the disk now. */
  ghost predicate PostsExact(t: Tree, r: Record)
    requires r.completed <= |r.effects|
  {
    forall j :: 0 <= j < r.completed ==> r.effects[j].post == Some(ImageAt(t, r.effects[j].loc)) && Roomy(t, r.effects[j].loc)
  }

  lemma {:induction false} AncestorInClosed(v: View, l: Location, n: nat)
    requires ClosedView(v) && l in v && n < |l.path|
    ensures Upto(l, n) in v && v[Upto(l, n)].DirEntry?
    decreases |l.path|
  {
    assert HangsIn(v, l);
    if n < |l.path| - 1 {
      AncestorInClosed(v, Parent(l), n);
      assert Upto(Parent(l), n) == Upto(l, n);
    }
  }

  lemma {:induction false} WalkClear(t: Tree, l: Location)
    requires forall n {:trigger Upto(l, n)} :: 0 <= n < |l.path| && Upto(l, n) in t ==> t[Upto(l, n)].Dir?
    ensures Walk(t, l) != Blocked
    decreases |l.path|
  {
    if l.path != [] {
      var p := Parent(l);
      assert p == Upto(l, |p.path|);
      forall n {:trigger Upto(p, n)} | 0 <= n < |p.path| && Upto(p, n) in t
        ensures t[Upto(p, n)].Dir?
      {
        assert Upto(p, n) == Upto(l, n);
      }
      WalkClear(t, p);
      WalkFinds(t, p);
    }
  }

  lemma {:induction false} WalkFinds(t: Tree, l: Location)
    ensures Walk(t, l).Found? ==> l in t && Walk(t, l).node == t[l]
  {
  }

  lemma OneEffect(v: View, es: seq<Effect>, k: nat, h: nat)
    requires k <= |es| && h < |es|
    requires forall a, b :: 0 <= a < b < |es| ==> es[a].loc != es[b].loc
    ensures At(ViewAt(v, es, k), es[h].loc) == if h < k then Goal(es[h]) else At(v, es[h].loc)
  {
    if h < k {
      ViewTouched(v, es, k, h);
    } else {
      ViewUntouched(v, es, k, es[h].loc);
    }
  }

  predicate IsDir(e: Option<Entry>) { e.Some? && e.value.DirEntry? }

  /** A location that is a directory at one point of the plan is one, or absent, at every point. */
  lemma DirOrAbsent(t: Tree, es: seq<Effect>, m: nat, i: nat, a: Location)
    requires PlanOk(t, es) && m <= |es| && i <= |es|
    requires IsDir(At(ViewAt(ViewOf(t), es, m), a))
    ensures At(ViewAt(ViewOf(t), es, i), a) == None || IsDir(At(ViewAt(ViewOf(t), es, i), a))
  {
    var v := ViewOf(t);
    if h :| 0 <= h < |es| && es[h].loc == a {
      assert EffectOk(t, es[h]);
      OneEffect(v, es, m, h);
      OneEffect(v, es, i, h);
      assert es[h].before.kind == DirKind <==> IsDir(At(v, a));
      assert es[h].before.kind == Absent <==> At(v, a) == None;
      assert es[h].after.kind == DirKind <==> IsDir(Goal(es[h]));
      assert es[h].after.kind == Absent <==> Goal(es[h]) == None;
    } else {
      ViewUntouched(v, es, m, a);
      ViewUntouched(v, es, i, a);
    }
  }

  /** At the moment an effect's location exists, its ancestors are directories. */
  lemma ExistsSometime(t: Tree, es: seq<Effect>, j: nat, n: nat) returns (m: nat)
    requires PlanOk(t, es) && j < |es| && n < |es[j].loc.path|
    ensures m <= |es| && IsDir(At(ViewAt(ViewOf(t), es, m), Upto(es[j].loc, n)))
  {
    assert EffectOk(t, es[j]);
    OneEffect(ViewOf(t), es, j, j);
    OneEffect(ViewOf(t), es, j + 1, j);
    m := if es[j].before.kind != Absent then j else j + 1;
    AncestorInClosed(ViewAt(ViewOf(t), es, m), es[j].loc, n);
  }

  /** No effect ever turns an ancestor of another effect into something that is not a directory. */
  lemma AncestorNeverBlocks(d: Disk, es: seq<Effect>, i: nat, j: nat, n: nat)
    requires Closed(d.tree) && PlanOk(d.tree, es) && i <= |es| && j < |es| && n < |es[j].loc.path|
    ensures var t, a := RunTo(d, es, i).tree, Upto(es[j].loc, n); a in t ==> t[a].Dir?
  {
    var m := ExistsSometime(d.tree, es, j, n);
    DirOrAbsent(d.tree, es, m, i, Upto(es[j].loc, n));
    PrefixState(d, es, i);
    assert Upto(es[j].loc, n) in RunTo(d, es, i).tree <==> Upto(es[j].loc, n) in ViewAt(ViewOf(d.tree), es, i);
  }

  /** A location already dealt with can be read exactly when it is not an overfull directory. */
  lemma SnapshotDone(d: Disk, es: seq<Effect>, i: nat, j: nat)
    requires Closed(d.tree) && PlanOk(d.tree, es) && j < i <= |es|
    ensures var t, l := RunTo(d, es, i).tree, es[j].loc;
            Snapshot(t, l) == if Roomy(t, l) then Some(ImageAt(t, l)) else None
  {
    var t, l := RunTo(d, es, i).tree, es[j].loc;
    PrefixState(d, es, i);
    ViewTouched(ViewOf(d.tree), es, i, j);
    assert EffectOk(d.tree, es[j]);
    SnapshotClosed(t, l);
    if l in t {
      assert At(ViewOf(t), l) == Goal(es[j]);
    } else {
      forall n {:trigger Upto(l, n)} | 0 <= n < |l.path| && Upto(l, n) in t
        ensures t[Upto(l, n)].Dir?
      {
        AncestorNeverBlocks(d, es, i, j, n);
      }
      WalkClear(t, l);
    }
  }

  lemma {:induction false} LastPostIs(es: seq<Effect>, k: nat, a: Location)
    requires k <= |es|
    requires forall x, y :: 0 <= x < y < |es| ==> es[x].loc != es[y].loc
    ensures (forall j :: 0 <= j < k ==> es[j].loc != a) ==> LastPost(es, k, a) == None
    ensures forall j :: 0 <= j < k && es[j].loc == a && es[j].post.Some? ==> LastPost(es, k, a) == es[j].post
  {
    if k > 0 {
      LastPostIs(es, k - 1, a);
    }
  }

  lemma {:induction false} FirstGuardIs(t: Tree, gs: seq<Observation>, a: Location)
    requires forall k :: 0 <= k < |gs| ==> Snapshot(t, gs[k].loc) == Some(gs[k].image)
    requires FirstGuard(gs, a).Some?
    ensures Snapshot(t, a) == FirstGuard(gs, a)
  {
    if gs[0].loc != a {
      FirstGuardIs(t, gs[1..], a);
    }
  }

  lemma AncestorIsDir(d: Disk, es: seq<Effect>, i: nat, n: nat)
    requires Closed(d.tree) && PlanOk(d.tree, es) && i < |es| && 0 < n < |es[i].loc.path|
    ensures var t, a := RunTo(d, es, i).tree, Upto(es[i].loc, n);
            a in t && t[a].Dir? && Snapshot(t, a) == if Roomy(t, a) then Some(ImageAt(t, a)) else None
  {
    var t, l := RunTo(d, es, i).tree, es[i].loc;
    var a, v := Upto(l, n), ViewOf(RunTo(d, es, i).tree);
    PrefixState(d, es, i);
    StepRuns(d, es, i);
    ClosedBoth(t);
    assert Parent(l) in v && v[Parent(l)].DirEntry?;
    if n == |l.path| - 1 {
      assert a == Parent(l);
    } else {
      AncestorInClosed(v, Parent(l), n);
      assert Upto(Parent(l), n) == a;
    }
    SnapshotClosed(t, a);
  }

  /** The expected image of an ancestor names the directory that is there now. */
  lemma ExpectedIsThere(d: Disk, r0: Record, r: Record, n: nat)
    requires Built(d.tree, r0) && SamePlan(r, r0) && r.completed < |r.effects|
    requires PostsExact(RunTo(d, r0.effects, r.completed).tree, r)
    requires 0 < n < |r.effects[r.completed].loc.path|
    ensures var t, a := RunTo(d, r0.effects, r.completed).tree, Upto(r.effects[r.completed].loc, n);
            var want := Expected(r, a);
            a in t && t[a].Dir? && want.Some? && want.value.kind == DirKind
            && want.value.identity == Some(t[a].id) && want.value.mode == t[a].mode
  {
    var es, i := r0.effects, r.completed;
    var t, a := RunTo(d, es, i).tree, Upto(es[i].loc, n);
    AncestorIsDir(d, es, i, n);
    LastPostIs(r.effects, i, a);
    if h :| 0 <= h < i && r.effects[h].loc == a {
      assert Expected(r, a) == r.effects[h].post;
    } else {
      assert FirstGuard(r0.guards, Upto(r0.effects[i].loc, n)).Some?;
      FirstGuardIs(d.tree, r0.guards, a);
      KeepsNode(d, es, 0, i, a);
      SnapshotClosed(d.tree, a);
    }
  }

  /** The ancestor check of a step fails only on an overfull directory. */
  lemma AncestorCheck(d: Disk, r0: Record, r: Record, n: nat)
    requires Built(d.tree, r0) && SamePlan(r, r0) && r.completed < |r.effects|
    requires PostsExact(RunTo(d, r0.effects, r.completed).tree, r)
    requires 0 < n < |r.effects[r.completed].loc.path|
    ensures var t, a := RunTo(d, r0.effects, r.completed).tree, Upto(r.effects[r.completed].loc, n);
            AncestorHolds(t, r, a) <==> Roomy(t, a)
  {
    AncestorIsDir(d, r0.effects, r.completed, n);
    ExpectedIsThere(d, r0, r, n);
  }

  lemma RootsKept(d: Disk, r0: Record, i: nat)
    requires Built(d.tree, r0) && i <= |r0.effects|
    ensures RootsHold(RunTo(d, r0.effects, i).tree, r0.roots)
  {
    forall p | p in r0.roots
      ensures var l, t := Location(p, []), RunTo(d, r0.effects, i).tree; l in t && t[l].Dir? && t[l].id == r0.roots[p]
    {
      forall j | 0 <= j < i
        ensures r0.effects[j].loc != Location(p, [])
      {
        assert EffectOk(d.tree, r0.effects[j]);
      }
      KeepsNode(d, r0.effects, 0, i, Location(p, []));
    }
  }

  /** What the step reads at its own location is what the plan recorded as Before. */
  lemma BeforeRead(d: Disk, es: seq<Effect>, i: nat)
    requires Closed(d.tree) && PlanOk(d.tree, es) && i < |es|
    ensures var t := RunTo(d, es, i).tree;
            Snapshot(t, es[i].loc).Some? && MatchesBefore(Snapshot(t, es[i].loc).value, es[i].before)
  {
    var t, l := RunTo(d, es, i).tree, es[i].loc;
    PrefixState(d, es, i);
    StepRuns(d, es, i);
    KeepsNode(d, es, 0, i, l);
    SnapshotClosed(t, l);
    assert EffectOk(d.tree, es[i]);
  }

  lemma ChecksIff(d: Disk, r0: Record, r: Record)
    requires Built(d.tree, r0) && SamePlan(r, r0) && r.completed < |r.effects|
    requires PostsExact(RunTo(d, r0.effects, r.completed).tree, r)
    ensures var t, l := RunTo(d, r0.effects, r.completed).tree, r.effects[r.completed].loc;
            StepChecks(t, r) <==> forall n {:trigger Upto(l, n)} :: 0 < n < |l.path| ==> Roomy(t, Upto(l, n))
  {
    var es, i := r0.effects, r.completed;
    var t, l := RunTo(d, es, i).tree, es[i].loc;
    assert EffectOk(d.tree, es[i]);
    RootsKept(d, r0, i);
    BeforeRead(d, es, i);
    forall j | 0 <= j < i
      ensures Snapshot(t, es[j].loc) == r.effects[j].post
    {
      SnapshotDone(d, es, i, j);
    }
    assert PostsHold(t, r);
    forall n {:trigger Upto(l, n)} | 0 < n < |l.path|
      ensures AncestorHolds(t, r, Upto(l, n)) <==> Roomy(t, Upto(l, n))
    {
      AncestorCheck(d, r0, r, n);
    }
  }

  lemma GoalConfirms(t: Tree, e: Effect)
    requires Normal(e.after) && At(ViewOf(t), e.loc) == Goal(e)
    ensures Confirms(ImageAt(t, e.loc), e.after)
  {
    match e.after.kind
    case Absent =>
    case FileKind =>
      assert e.loc in t && t[e.loc].File?;
    case DirKind =>
      assert e.loc in t && t[e.loc].Dir?;
    case LinkKind =>
      assert e.loc in t && t[e.loc].Link?;
  }

  /** The new entry confirms its After image. */
  lemma NewEntryConfirms(d: Disk, es: seq<Effect>, i: nat, t: Tree, e: Effect)
    requires Closed(d.tree) && PlanOk(d.tree, es) && i < |es| && t == RunTo(d, es, i + 1).tree
    requires SameButPost(e, es[i])
    ensures Confirms(ImageAt(t, e.loc), e.after)
  {
    assert EffectOk(d.tree, es[i]);
    hide PlanOk, RunTo;
    GoalShown(d, es, i + 1, i, t);
    GoalConfirms(t, e);
  }

  lemma GoalShown(d: Disk, es: seq<Effect>, k: nat, j: nat, t: Tree)
    requires Closed(d.tree) && PlanOk(d.tree, es) && j < k <= |es| && t == RunTo(d, es, k).tree
    ensures At(ViewOf(t), es[j].loc) == Goal(es[j])
  {
    PrefixState(d, es, k);
    ViewTouched(ViewOf(d.tree), es, k, j);
  }

  /** A step changes no other effect's entry; only a directory's listing may differ. */
  lemma OtherImagesKept(d: Disk, es: seq<Effect>, i: nat, s: Tree, t: Tree, r: Record)
    requires Closed(d.tree) && PlanOk(d.tree, es) && i < |es|
    requires s == RunTo(d, es, i).tree && t == RunTo(d, es, i + 1).tree
    requires r.completed == i && |r.effects| == |es| && (forall j :: 0 <= j < |es| ==> r.effects[j].loc == es[j].loc)
    requires PostsExact(s, r)
    ensures forall j :: 0 <= j < i && !DirPost(r.effects[j]) ==>
               r.effects[j].post == Some(ImageAt(t, r.effects[j].loc)) && Roomy(t, r.effects[j].loc)
  {
    forall j | 0 <= j < i && !DirPost(r.effects[j])
      ensures r.effects[j].post == Some(ImageAt(t, r.effects[j].loc)) && Roomy(t, r.effects[j].loc)
    {
      var l := es[j].loc;
      KeepsNode(d, es, i, i + 1, l);
      assert r.effects[j].post == Some(ImageAt(s, l));
      assert (l in s <==> l in t) && (l in s ==> s[l] == t[l] && !s[l].Dir?);
    }
  }

  lemma AllReadable(d: Disk, es: seq<Effect>, k: nat, t: Tree)
    requires Closed(d.tree) && PlanOk(d.tree, es) && k <= |es| && t == RunTo(d, es, k).tree
    ensures forall j :: 0 <= j < k ==>
              Snapshot(t, es[j].loc) == if Roomy(t, es[j].loc) then Some(ImageAt(t, es[j].loc)) else None
  {
    forall j | 0 <= j < k
      ensures Snapshot(t, es[j].loc) == if Roomy(t, es[j].loc) then Some(ImageAt(t, es[j].loc)) else None
    {
      SnapshotDone(d, es, k, j);
    }
  }

  lemma ConfirmMeans(t: Tree, r: Record)
    requires r.completed < |r.effects|
    requires Confirms(ImageAt(t, r.effects[r.completed].loc), r.effects[r.completed].after)
    requires forall j :: 0 <= j <= r.completed ==>
              Snapshot(t, r.effects[j].loc) == if Roomy(t, r.effects[j].loc) then Some(ImageAt(t, r.effects[j].loc)) else None
    requires forall j :: 0 <= j < r.completed && !DirPost(r.effects[j]) ==>
               r.effects[j].post == Some(ImageAt(t, r.effects[j].loc)) && Roomy(t, r.effects[j].loc)
    ensures ConfirmPasses(t, r) <==> forall j :: 0 <= j <= r.completed ==> Roomy(t, r.effects[j].loc)
    ensures ConfirmPasses(t, r) ==> PostsExact(t, ConfirmedBy(t, r))
  {
    var i := r.completed;
    var next := Confirmed(r, Snapshot(t, r.effects[i].loc)).effects;
    assert forall j :: 0 <= j < i ==> next[j] == r.effects[j];
    if ConfirmPasses(t, r) {
      forall j | 0 <= j <= i
        ensures Roomy(t, r.effects[j].loc)
      {
        assert j < i ==> next[j] == r.effects[j];
      }
    }
  }

  /** The confirming reads of a step fail only on an overfull directory, and leave exact posts. */
  lemma ConfirmIff(d: Disk, es: seq<Effect>, r: Record, s: Tree, t: Tree)
    requires Closed(d.tree) && PlanOk(d.tree, es) && |r.effects| == |es| && r.completed < |es|
    requires forall j :: 0 <= j < |es| ==> r.effects[j].loc == es[j].loc
    requires SameButPost(r.effects[r.completed], es[r.completed])
    requires s == RunTo(d, es, r.completed).tree && t == RunTo(d, es, r.completed + 1).tree
    requires PostsExact(s, r)
    ensures ConfirmPasses(t, r) <==> forall j :: 0 <= j <= r.completed ==> Roomy(t, r.effects[j].loc)
    ensures ConfirmPasses(t, r) ==> PostsExact(t, ConfirmedBy(t, r))
  {
    hide *;
    NewEntryConfirms(d, es, r.completed, t, r.effects[r.completed]);
    AllReadable(d, es, r.completed + 1, t);
    OtherImagesKept(d, es, r.completed, s, t, r);
    ConfirmMeans(t, r);
  }

  /** One step of a quiet run passes exactly when the directories it lists fit. */
  lemma StepIff(d: Disk, r0: Record, r: Record)
    requires Built(d.tree, r0) && SamePlan(r, r0) && r.completed < |r.effects|
    requires PostsExact(RunTo(d, r0.effects, r.completed).tree, r)
    ensures var here := RunTo(d, r0.effects, r.completed);
            && (StepPasses(here, r) <==> FitsAt(d, r0.effects, r.completed))
            && (StepPasses(here, r) ==> PostsExact(RunTo(d, r0.effects, r.completed + 1).tree, AfterStep(here, r)))
  {
    hide *;
    BuiltParts(d.tree, r0);
    SamePlanParts(r, r0);
    PublishesNext(d, r0.effects, r.completed, r.effects[r.completed]);
    ChecksIff(d, r0, r);
    ConfirmIff(d, r0.effects, r, RunTo(d, r0.effects, r.completed).tree, RunTo(d, r0.effects, r.completed + 1).tree);
    StepIsBoth(d, r0, r);
  }

  lemma StepIsBoth(d: Disk, r0: Record, r: Record)
    requires SamePlan(r, r0) && r.completed < |r.effects|
    requires PublishEffect(RunTo(d, r0.effects, r.completed), r.effects[r.completed]) == Some(RunTo(d, r0.effects, r.completed + 1))
    ensures var here, next := RunTo(d, r0.effects, r.completed), RunTo(d, r0.effects, r.completed + 1);
            && (StepPasses(here, r) <==> StepChecks(here.tree, r) && ConfirmPasses(next.tree, r))
            && (StepPasses(here, r) ==> AfterStep(here, r) == ConfirmedBy(next.tree, r))
            && (FitsAt(d, r0.effects, r.completed) <==>
                  (var l := r.effects[r.completed].loc;
                   forall n {:trigger Upto(l, n)} :: 0 < n < |l.path| ==> Roomy(here.tree, Upto(l, n)))
                  && forall j :: 0 <= j <= r.completed ==> Roomy(next.tree, r.effects[j].loc))
  {
    hide StepChecks, ConfirmPasses, RunTo, PublishEffect, ConfirmedBy;
    assert forall j :: 0 <= j < |r.effects| ==> SameButPost(r.effects[j], r0.effects[j]);
  }

  lemma BuiltParts(t: Tree, r: Record)
    requires Built(t, r)
    ensures Closed(t) && PlanOk(t, r.effects) && GuardsOk(t, r)
    ensures forall a, b :: 0 <= a < b < |r.effects| ==> r.effects[a].loc != r.effects[b].loc
  {
  }

  lemma PublishesNext(d: Disk, es: seq<Effect>, k: nat, e: Effect)
    requires Closed(d.tree) && PlanOk(d.tree, es) && k < |es| && SameButPost(e, es[k])
    ensures PublishEffect(RunTo(d, es, k), e) == Some(RunTo(d, es, k + 1))
  {
    PrefixState(d, es, k);
    StepRuns(d, es, k);
    hide PlanOk;
  }

  lemma {:induction false} PassesFrom(d: Disk, r0: Record, r: Record)
    requires Built(d.tree, r0) && SamePlan(r, r0) && r.completed <= |r.effects|
    requires PostsExact(RunTo(d, r0.effects, r.completed).tree, r)
    ensures Passes(RunTo(d, r0.effects, r.completed), r) <==>
              forall i :: r.completed <= i < |r0.effects| ==> FitsAt(d, r0.effects, i)
    decreases |r.effects| - r.completed
  {
    hide StepChecks, StepPasses, AfterStep, PublishEffect, FitsAt, Built, RunTo;
    if r.completed < |r.effects| {
      var here := RunTo(d, r0.effects, r.completed);
      StepIff(d, r0, r);
      PassesNext(here, r);
      if StepPasses(here, r) {
        StepEndsAt(d, r0, r);
        PassesFrom(d, r0, AfterStep(here, r));
      }
    }
  }

  lemma StepEndsAt(d: Disk, r0: Record, r: Record)
    requires SamePlan(r, r0) && r.completed < |r.effects| && StepPasses(RunTo(d, r0.effects, r.completed), r)
    ensures PublishEffect(RunTo(d, r0.effects, r.completed), r.effects[r.completed]).value == RunTo(d, r0.effects, r.completed + 1)
    ensures SamePlan(AfterStep(RunTo(d, r0.effects, r.completed), r), r0)
    ensures AfterStep(RunTo(d, r0.effects, r.completed), r).completed == r.completed + 1
  {
    RunToNext(d, r0.effects, r.completed, r.effects[r.completed]);
    hide StepChecks, Snapshot;
  }

  /** A built plan, applied to the tree it was planned on with every write working, runs to its end
      exactly when no directory it has to list holds more than MAX_FILES entries at that moment;
      then every location shows its planned entry and nothing else has changed. */
  lemma BuiltPlanRuns(d: Disk, r: Record)
    requires Built(d.tree, r) && ApplyAccepts(r)
    ensures Passes(d, r.(status := Applying)) <==> Fits(d, r.effects)
    ensures ViewOf(RunTo(d, r.effects, |r.effects|).tree) == ViewAt(ViewOf(d.tree), r.effects, |r.effects|)
    ensures forall l :: Untouched(r.effects, |r.effects|, l) ==>
              At(ViewOf(RunTo(d, r.effects, |r.effects|).tree), l) == At(ViewOf(d.tree), l)
    ensures forall i :: 0 <= i < |r.effects| ==>
              At(ViewOf(RunTo(d, r.effects, |r.effects|).tree), r.effects[i].loc) == Goal(r.effects[i])
  {
    PassesFrom(d, r, r.(status := Applying));
    PrefixState(d, r.effects, |r.effects|);
    forall l | Untouched(r.effects, |r.effects|, l)
      ensures At(ViewAt(ViewOf(d.tree), r.effects, |r.effects|), l) == At(ViewOf(d.tree), l)
    {
      ViewUntouched(ViewOf(d.tree), r.effects, |r.effects|, l);
    }
    forall i | 0 <= i < |r.effects|
      ensures At(ViewAt(ViewOf(d.tree), r.effects, |r.effects|), r.effects[i].loc) == Goal(r.effects[i])
    {
      ViewTouched(ViewOf(d.tree), r.effects, |r.effects|, i);
    }
  }

  /** Nothing `Apply` checks before its first mutation refuses a built plan on the tree it was planned on. */
  lemma BuiltIsReady(t: Tree, store: map<Id, Record>, id: Id)
    requires id in store && Built(t, store[id]) && ApplyAccepts(store[id])
    requires var p := store[id].parent;
             p.Some? ==>
               && p.value in store
               && (store[p.value].status == Applied || (store[id].mode == Undo && store[p.value].status == Partial))
    ensures ReadyToRun(t, store, id)
  {
    var r := store[id];
    forall k | 0 <= k < |r.effects|
      ensures Stored(r.effects[k].after).Some? && Stored(r.effects[k].before).Some?
    {
      assert EffectOk(t, r.effects[k]);
    }
  }

  lemma {:induction false} SameViews(v: View, es: seq<Effect>, fs: seq<Effect>, k: nat)
    requires |es| == |fs| && k <= |es| && forall i :: 0 <= i < |es| ==>
              es[i].loc == fs[i].loc && es[i].after == fs[i].after
    ensures ViewAt(v, es, k) == ViewAt(v, fs, k)
  {
    if k > 0 {
      SameViews(v, es, fs, k - 1);
    }
  }

  lemma {:induction false} SameRuns(d: Disk, es: seq<Effect>, fs: seq<Effect>, k: nat)
    requires |es| == |fs| && k <= |es| && forall i :: 0 <= i < |es| ==> SameButPost(es[i], fs[i])
    ensures RunTo(d, es, k) == RunTo(d, fs, k)
  {
    if k > 0 {
      SameRuns(d, es, fs, k - 1);
    }
  }

  /** Confirming effects does not change what the plan is. */
  lemma SameBuilt(t: Tree, a: Record, b: Record)
    requires Built(t, a) && SamePlan(b, a)
    ensures Built(t, b)
  {
    forall k | 0 <= k <= |b.effects|
      ensures ClosedView(ViewAt(ViewOf(t), b.effects, k))
    {
      SameViews(ViewOf(t), b.effects, a.effects, k);
    }
    forall i | 0 <= i < |b.effects|
      ensures EffectOk(t, b.effects[i])
    {
      assert EffectOk(t, a.effects[i]);
    }
  }

  // ---------------------------------------------------------------- plans that need not be good ones

  /** Whatever is published, the disk stays a tree. */
  lemma PublishClosed(d: Disk, l: Location, before: Kind, after: Image, data: Bytes)
    requires Closed(d.tree) && Publish(d, l, before, after, data).Some?
    ensures Closed(Publish(d, l, before, after, data).value.tree)
  {
    var t, u := d.tree, Publish(d, l, before, after, data).value.tree;
    WalkFinds(t, Parent(l));
    assert Parent(l) != l by { assert |Parent(l).path| < |l.path|; }
    forall k {:trigger Hangs(u, k)} | k in u
      ensures Hangs(u, k)
    {
      assert k in t ==> Hangs(t, k);
      if k.path != [] && Parent(k) == l && k in t {
        ChildIsNamed(t, k);
      }
    }
  }

  lemma ChildIsNamed(t: Tree, k: Location)
    requires k in t && k.path != []
    ensures Names(t, Parent(k)) != {}
  {
    assert Base(k) in Names(t, Parent(k));
  }

  lemma {:induction false} RunToClosed(d: Disk, es: seq<Effect>, k: nat)
    requires Closed(d.tree) && k <= |es|
    ensures Closed(RunTo(d, es, k).tree)
  {
    if k > 0 {
      RunToClosed(d, es, k - 1);
      var e := es[k - 1];
      hide Publish, Closed;
      if PublishEffect(RunTo(d, es, k - 1), e).Some? {
        PublishClosed(RunTo(d, es, k - 1), e.loc, e.before.kind, e.after, Payload(e.after));
      }
    }
  }

  /** When every publication so far could be carried out, the disk shows the predicted contents, and they are a tree. */
  lemma {:induction false} ViewsFollow(d: Disk, es: seq<Effect>, k: nat)
    requires Closed(d.tree) && k <= |es| && forall j :: 0 <= j < k ==> PublishEffect(RunTo(d, es, j), es[j]).Some?
    ensures ViewOf(RunTo(d, es, k).tree) == ViewAt(ViewOf(d.tree), es, k) && ClosedView(ViewAt(ViewOf(d.tree), es, k))
  {
    hide *;
    RunToClosed(d, es, k);
    ClosedBoth(RunTo(d, es, k).tree);
    if k == 0 {
      NothingRun(d, es);
    } else {
      ViewsFollow(d, es, k - 1);
      assert PublishEffect(RunTo(d, es, k - 1), es[k - 1]).Some?;
      NextRun(d, es, k);
      var u, v := ViewOf(RunTo(d, es, k).tree), ViewAt(ViewOf(d.tree), es, k);
      forall l
        ensures At(u, l) == At(v, l)
      {
        PublishAt(RunTo(d, es, k - 1), es[k - 1], l);
        PutAt(ViewAt(ViewOf(d.tree), es, k - 1), es[k - 1].loc, Goal(es[k - 1]), l);
      }
      SameEverywhere(u, v);
    }
  }

  lemma NothingRun(d: Disk, es: seq<Effect>)
    ensures RunTo(d, es, 0) == d && ViewAt(ViewOf(d.tree), es, 0) == ViewOf(d.tree)
  {
  }

  lemma NextRun(d: Disk, es: seq<Effect>, k: nat)
    requires 0 < k <= |es| && PublishEffect(RunTo(d, es, k - 1), es[k - 1]).Some?
    ensures RunTo(d, es, k) == PublishEffect(RunTo(d, es, k - 1), es[k - 1]).value
    ensures ViewAt(ViewOf(d.tree), es, k) == Put(ViewAt(ViewOf(d.tree), es, k - 1), es[k - 1].loc, Goal(es[k - 1]))
  {
    hide PublishEffect, Put, Goal, ViewOf;
  }

  lemma SameEverywhere(u: View, v: View)
    requires forall l :: At(u, l) == At(v, l)
    ensures u == v
  {
    forall l
      ensures (l in u <==> l in v) && (l in u ==> u[l] == v[l])
    {
      assert At(u, l) == At(v, l);
    }
  }

  /** A record whose remaining steps all pass has all of them published. */
  lemma {:induction false} PassesPublish(d: Disk, r0: Record, r: Record)
    requires SamePlan(r, r0) && r.completed <= |r.effects| && Passes(RunTo(d, r0.effects, r.completed), r)
    ensures |r0.effects| == |r.effects|
    ensures forall j :: r.completed <= j < |r0.effects| ==> PublishEffect(RunTo(d, r0.effects, j), r0.effects[j]).Some?
    decreases |r.effects| - r.completed
  {
    hide *;
    SamePlanParts(r, r0);
    if r.completed < |r.effects| {
      var here := RunTo(d, r0.effects, r.completed);
      PassesNext(here, r);
      StepEndsAt(d, r0, r);
      PublishedStep(here, r);
      SameEffect(here, r.effects[r.completed], r0.effects[r.completed]);
      AfterStepSize(here, r);
      PassesPublish(d, r0, AfterStep(here, r));
    }
  }

  lemma PublishedStep(here: Disk, r: Record)
    requires r.completed < |r.effects| && StepPasses(here, r)
    ensures PublishEffect(here, r.effects[r.completed]).Some?
  {
    hide StepChecks, ConfirmPasses, PublishEffect;
  }

  lemma AfterStepSize(here: Disk, r: Record)
    requires r.completed < |r.effects| && StepPasses(here, r)
    ensures |AfterStep(here, r).effects| == |r.effects| && AfterStep(here, r).completed == r.completed + 1
  {
    hide StepChecks, ConfirmPasses, PublishEffect, Snapshot;
  }

  lemma SameEffect(d: Disk, a: Effect, b: Effect)
    requires SameButPost(a, b)
    ensures PublishEffect(d, a) == PublishEffect(d, b)
  {
    hide Publish;
  }

  /** One effect for each location, and each of them good by itself. */
  ghost predicate EachGood(t: Tree, es: seq<Effect>) {
    && (forall i, j :: 0 <= i < j < |es| ==> es[i].loc != es[j].loc)
    && (forall i :: 0 <= i < |es| ==> EffectOk(t, es[i]))
  }

  /** Only a built plan can pass: one whose steps cannot follow one another is stopped on the way. */
  lemma OnlyBuiltPasses(d: Disk, r: Record)
    requires Closed(d.tree) && ApplyAccepts(r) && EachGood(d.tree, r.effects) && GuardsOk(d.tree, r)
    requires Passes(d, r.(status := Applying))
    ensures Built(d.tree, r)
  {
    var es, a := r.effects, r.(status := Applying);
    assert SamePlan(a, r);
    PassesPublish(d, r, a);
    forall k | 0 <= k <= |es|
      ensures ClosedView(ViewAt(ViewOf(d.tree), es, k))
    {
      ViewsFollow(d, es, k);
    }
    hide EffectOk, ClosedView, GuardsOk, Passes, PublishEffect, Closed;
  }
}
