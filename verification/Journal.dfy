/**
 Planned effects and what a confirmed prefix of them means
 (internal/agentinterop/model.go, apply.go).
 */
module Effects {
  import opened Options
  import opened FileTree

  datatype Effect = Effect(loc: Location, before: Image, after: Image, post: Option<Image>, retirement: bool)

  /** The bytes of a recovery object, None when it fails validation. */
  function Stored(img: Image): Option<Bytes> {
    if img.kind != FileKind then Some([])
    else if img.blob.Some? && img.digest == OfBytes(img.blob.value) then img.blob
    else None
  }

  function Payload(img: Image): Bytes {
    if Stored(img).Some? then Stored(img).value else []
  }

  function Goal(e: Effect): Option<Entry> {
    Wanted(e.after, Payload(e.after))
  }

  function PublishEffect(d: Disk, e: Effect): Option<Disk> {
    Publish(d, e.loc, e.before.kind, e.after, Payload(e.after))
  }

  /** The disk after the first `k` effects, on a disk nobody else edits. */
  function RunTo(d: Disk, es: seq<Effect>, k: nat): Disk
    requires k <= |es|
  {
    if k == 0 then d
    else
      var prev := RunTo(d, es, k - 1);
      match PublishEffect(prev, es[k - 1])
      case Some(next) => next
      case None => prev
  }

  /** The predicted contents after the first `k` effects. */
  function ViewAt(v: View, es: seq<Effect>, k: nat): View
    requires k <= |es|
  {
    if k == 0 then v else Put(ViewAt(v, es, k - 1), es[k - 1].loc, Goal(es[k - 1]))
  }

  /** An After image as the builder leaves it. */
  predicate Normal(after: Image) {
    match after.kind
    case Absent => after == ABSENT
    case FileKind => after.identity == None && Stored(after).Some? && |Stored(after).value| <= MAX_BYTES && after.link == ""
    case DirKind => after.identity == None && after.link == ""
    case LinkKind => after.identity == None && after.mode == LINK_MODE && after.digest == OfLink(after.link)
  }

  ghost predicate EffectOk(t: Tree, e: Effect) {
    && e.loc.path != [] && ValidLocation(e.loc)
    && Supported(e.before.kind, e.after.kind)
    && SameImage(ImageAt(t, e.loc), e.before)
    && Stored(e.before).Some?
    && |Payload(e.before)| <= MAX_BYTES
    && Normal(e.after)
    && !SameContent(e.before, e.after)
  }

  /** What every built plan satisfies on the tree it was planned on. */
  ghost predicate PlanOk(t: Tree, es: seq<Effect>) {
    && (forall i, j :: 0 <= i < j < |es| ==> es[i].loc != es[j].loc)
    && (forall i :: 0 <= i < |es| ==> EffectOk(t, es[i]))
    && (forall k :: 0 <= k <= |es| ==> ClosedView(ViewAt(ViewOf(t), es, k)))
  }

  ghost predicate Untouched(es: seq<Effect>, k: nat, l: Location)
    requires k <= |es|
  {
    forall j :: 0 <= j < k ==> es[j].loc != l
  }

  lemma {:induction false} ViewUntouched(v: View, es: seq<Effect>, k: nat, l: Location)
    requires k <= |es| && Untouched(es, k, l)
    ensures At(ViewAt(v, es, k), l) == At(v, l)
  {
    if k > 0 {
      ViewUntouched(v, es, k - 1, l);
    }
  }

  /** Locations are distinct, so each one shows its Before until its own effect and its goal afterwards. */
  lemma {:induction false} ViewTouched(v: View, es: seq<Effect>, k: nat, j: nat)
    requires j < k <= |es|
    requires forall a, b :: 0 <= a < b < |es| ==> es[a].loc != es[b].loc
    ensures At(ViewAt(v, es, k), es[j].loc) == Goal(es[j])
  {
    if j < k - 1 {
      ViewTouched(v, es, k - 1, j);
    }
  }

  /** Every step of a good plan can be carried out on the disk its prefix leaves. */
  lemma StepRuns(d: Disk, es: seq<Effect>, k: nat)
    requires PlanOk(d.tree, es) && k < |es|
    requires Closed(RunTo(d, es, k).tree) && ViewOf(RunTo(d, es, k).tree) == ViewAt(ViewOf(d.tree), es, k)
    ensures PublishEffect(RunTo(d, es, k), es[k]).Some?
    ensures ViewOf(RunTo(d, es, k + 1).tree) == ViewAt(ViewOf(d.tree), es, k + 1)
    ensures var p, q := RunTo(d, es, k).tree, RunTo(d, es, k + 1).tree;
            forall l :: l != es[k].loc ==> (l in p <==> l in q) && (l in p ==> q[l] == p[l])
    ensures var p := RunTo(d, es, k).tree; Parent(es[k].loc) in p && p[Parent(es[k].loc)].Dir?
    ensures es[k].after.kind == Absent ==> Names(RunTo(d, es, k).tree, es[k].loc) == {}
  {
    var e, dk, v := es[k], RunTo(d, es, k), ViewOf(d.tree);
    var here, after := ViewAt(v, es, k), ViewAt(v, es, k + 1);
    assert ClosedView(here) && ClosedView(after);
    assert EffectOk(d.tree, e);
    ViewUntouched(v, es, k, e.loc);
    assert At(here, e.loc) == At(v, e.loc);
    assert e.loc in dk.tree <==> e.loc in here;
    assert KindAt(dk.tree, e.loc) == e.before.kind;
    assert Parent(e.loc) != e.loc by { assert |Parent(e.loc).path| < |e.loc.path|; }
    if e.after.kind == Absent {
      assert e.loc in here && HangsIn(here, e.loc);
      forall c | c in dk.tree && c.path != []
        ensures Parent(c) != e.loc
      {
        if c != e.loc {
          assert c in here && c in after;
          assert HangsIn(after, c);
        }
      }
    } else {
      assert e.loc in after && HangsIn(after, e.loc);
    }
    assert Parent(e.loc) in here && here[Parent(e.loc)].DirEntry?;
    PublishMeans(dk, e.loc, e.before.kind, e.after, Payload(e.after));
  }

  /** After any prefix the disk holds the predicted contents and stays a tree. */
  lemma {:induction false} PrefixState(d: Disk, es: seq<Effect>, k: nat)
    requires Closed(d.tree) && PlanOk(d.tree, es) && k <= |es|
    ensures Closed(RunTo(d, es, k).tree)
    ensures ViewOf(RunTo(d, es, k).tree) == ViewAt(ViewOf(d.tree), es, k)
  {
    if k > 0 {
      PrefixState(d, es, k - 1);
      StepRuns(d, es, k - 1);
    }
    ClosedBoth(RunTo(d, es, k).tree);
  }

  /** Every location a stretch of the plan does not name keeps its very node. */
  lemma {:induction false} KeepsNode(d: Disk, es: seq<Effect>, i: nat, k: nat, l: Location)
    requires Closed(d.tree) && PlanOk(d.tree, es) && i <= k <= |es|
    requires forall j :: i <= j < k ==> es[j].loc != l
    ensures var p, q := RunTo(d, es, i).tree, RunTo(d, es, k).tree;
            (l in p <==> l in q) && (l in p ==> q[l] == p[l])
  {
    hide *;
    if i < k {
      KeepsNode(d, es, i, k - 1, l);
      PrefixState(d, es, k - 1);
      StepRuns(d, es, k - 1);
    }
  }
}
