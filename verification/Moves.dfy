/**
 Moving a skill (internal/agentinterop/skills.go:134-275, skill_move.go): the source is retired, last
 entry first, only after every copy, so that no confirmed prefix of the plan holds neither.
 */
module Moves {
  import opened Options
  import opened FileTree
  import opened Effects
  import opened Transaction
  import opened Execution
  import opened Planner
  import opened Ordering
  import opened Listing
  import opened Skills

  const LOCK_MODE: nat := 384

  /** No planned location lies at or below `source`. */
  ghost predicate Outside(planned: map<Location, Image>, source: Location) {
    forall k {:trigger k in planned} :: k in planned ==> !Inside(source, k)
  }

  /** The entries from position `i` on are gone. */
  ghost predicate Cleared(v: View, source: Location, es: seq<TreeEntry>, i: nat) {
    forall j :: i <= j < |es| ==> At(v, Under(source, es[j].rel)) == None
  }

  /** What is planned inside `source` is among the entries from position `i` on. */
  ghost predicate Growth(planned: map<Location, Image>, source: Location, es: seq<TreeEntry>, i: nat) {
    forall k {:trigger k in planned} :: k in planned && Inside(source, k) ==> exists j :: i <= j < |es| && k == Under(source, es[j].rel)
  }

  ghost predicate Emptied(v: View, source: Location) {
    forall k {:trigger Inside(source, k)} :: Inside(source, k) ==> k !in v
  }

  lemma ClearBelow(t: Tree, effects: seq<Effect>, planned: map<Location, Image>, source: Location, es: seq<TreeEntry>,
      i: nat, v: View)
    requires Consistent(t, effects, planned) && v == ViewAt(ViewOf(t), effects, |effects|)
    requires Lists(t, source, es) && i < |es| && Cleared(v, source, es, i + 1) && Growth(planned, source, es, i + 1)
    ensures NothingBelow(v, Under(source, es[i].rel))
  {
    var l := Under(source, es[i].rel);
    forall k | k in v && k.path != []
      ensures Parent(k) != l
    {
      if Parent(k) == l {
        var j := ListedLater(t, effects, planned, source, es, i, v, k);
      }
    }
  }

  /** An entry still shown directly below entry `i` would have been listed after it. */
  lemma ListedLater(t: Tree, effects: seq<Effect>, planned: map<Location, Image>, source: Location, es: seq<TreeEntry>,
      i: nat, v: View, k: Location)
    returns (j: nat)
    requires Consistent(t, effects, planned) && v == ViewAt(ViewOf(t), effects, |effects|)
    requires Lists(t, source, es) && i < |es| && Growth(planned, source, es, i + 1)
    requires k in v && k.path != [] && Parent(k) == Under(source, es[i].rel)
    ensures i < j < |es| && k == Under(source, es[j].rel)
  {
    var rel := BelowIs(source, es[i].rel, k);
    if k in planned {
      j :| i + 1 <= j < |es| && k == Under(source, es[j].rel);
    } else {
      PredictedAt(t, effects, planned, k);
      hide Consistent, ViewAt, Growth;
      assert k in ViewOf(t);
      j := ListIndex(t, source, es, k);
      UnderApart(source, es[j].rel, rel);
      ListingOrder(t, source, es);
      var m := ParentBefore(t, source, es, j);
      assert es[m].rel == es[i].rel;
    }
  }

  lemma BelowIs(source: Location, rel: seq<string>, k: Location) returns (more: seq<string>)
    requires k.path != [] && Parent(k) == Under(source, rel)
    ensures Inside(source, k) && more != [] && more[..|more| - 1] == rel && k == Under(source, more)
  {
    more := rel + [Base(k)];
    ChildOfParent(k, "");
    assert k.path == (source.path + rel) + [Base(k)];
    assert (source.path + rel) + [Base(k)] == source.path + more;
  }

  /** The listing misses nothing. */
  lemma ListIndex(t: Tree, source: Location, es: seq<TreeEntry>, k: Location) returns (j: nat)
    requires Lists(t, source, es) && k in t && Inside(source, k)
    ensures j < |es| && k == Under(source, es[j].rel)
  {
    assert Under(source, []) == source by { assert source.path + [] == source.path; }
    j := ListComplete(t, source, [], k);
  }

  /** Retiring the listed entries, children before the directory they are in. */
  method RemoveEntries(b: Builder, source: Location, es: seq<TreeEntry>) returns (r: Result<()>)
    requires b.Ready() && Lists(b.tree, source, es) && Outside(b.planned, source)
    modifies b
    ensures b.Ready() && old(b.effects) <= b.effects && old(b.planned).Keys <= b.planned.Keys
    ensures r.Ok? ==> Emptied(b.Predicted(), source)
  {
    hide *;
    var i: nat := |es|;
    RemovalStarts(b.Predicted(), b.planned, source, es);
    while i > 0
      invariant i <= |es|
      invariant b.Ready() && old(b.effects) <= b.effects && old(b.planned).Keys <= b.planned.Keys
      invariant Cleared(b.Predicted(), source, es, i) && Growth(b.planned, source, es, i)
    {
      i := i - 1;
      ghost var v, planned := b.Predicted(), b.planned;
      b.ReadyParts();
      ClearBelow(b.tree, b.effects, b.planned, source, es, i, v);
      r := b.Remove(Under(source, es[i].rel));
      if r.Err? {
        return;
      }
      RemovalGoesOn(v, b.Predicted(), planned, b.planned, source, es, i);
    }
    b.ReadyParts();
    RemovalEnds(b.tree, b.effects, b.planned, source, es, b.Predicted());
    return Ok(());
  }

  lemma RemovalStarts(v: View, planned: map<Location, Image>, source: Location, es: seq<TreeEntry>)
    requires Outside(planned, source)
    ensures Cleared(v, source, es, |es|) && Growth(planned, source, es, |es|)
  {
  }

  lemma RemovalGoesOn(v: View, w: View, before: map<Location, Image>, after: map<Location, Image>, source: Location,
      es: seq<TreeEntry>, i: nat)
    requires i < |es| && Cleared(v, source, es, i + 1) && Growth(before, source, es, i + 1)
    requires w == Put(v, Under(source, es[i].rel), None)
    requires forall k {:trigger k in after} :: k in after ==> k in before || k == Under(source, es[i].rel)
    ensures Cleared(w, source, es, i) && Growth(after, source, es, i)
  {
    forall j | i <= j < |es|
      ensures At(w, Under(source, es[j].rel)) == None
    {
      if j > i {
        assert At(v, Under(source, es[j].rel)) == None;
      }
    }
    forall k {:trigger k in after} | k in after && Inside(source, k)
      ensures exists j :: i <= j < |es| && k == Under(source, es[j].rel)
    {
      if k == Under(source, es[i].rel) {
        assert i <= i < |es|;
      } else {
        assert k in before;
        var j :| i + 1 <= j < |es| && k == Under(source, es[j].rel);
        assert i <= j < |es|;
      }
    }
  }

  lemma RemovalEnds(t: Tree, effects: seq<Effect>, planned: map<Location, Image>, source: Location, es: seq<TreeEntry>,
      v: View)
    requires Consistent(t, effects, planned) && v == ViewAt(ViewOf(t), effects, |effects|)
    requires Lists(t, source, es) && Cleared(v, source, es, 0) && Growth(planned, source, es, 0)
    ensures Emptied(v, source)
  {
    forall k {:trigger Inside(source, k)} | Inside(source, k)
      ensures k !in v
    {
      if k in v {
        var j := StillListed(t, effects, planned, source, es, v, k);
      }
    }
  }

  lemma StillListed(t: Tree, effects: seq<Effect>, planned: map<Location, Image>, source: Location, es: seq<TreeEntry>,
      v: View, k: Location)
    returns (j: nat)
    requires Consistent(t, effects, planned) && v == ViewAt(ViewOf(t), effects, |effects|)
    requires Lists(t, source, es) && Growth(planned, source, es, 0) && k in v && Inside(source, k)
    ensures j < |es| && k == Under(source, es[j].rel)
  {
    if k in planned {
      j :| 0 <= j < |es| && k == Under(source, es[j].rel);
    } else {
      PredictedAt(t, effects, planned, k);
      hide Consistent, ViewAt, Growth;
      assert k in ViewOf(t);
      j := ListIndex(t, source, es, k);
    }
  }

  lemma LeafHere(t: Tree, effects: seq<Effect>, planned: map<Location, Image>, l: Location)
    requires Consistent(t, effects, planned) && Plannable(t, effects) && l in t && !t[l].Dir?
    ensures l in planned || NothingBelow(ViewAt(ViewOf(t), effects, |effects|), l)
  {
    PredictedAt(t, effects, planned, l);
    PlannableClosed(t, effects);
    hide Consistent, Plannable, ViewAt, ClosedView, NothingBelow;
    if l !in planned {
      LeafBelow(ViewAt(ViewOf(t), effects, |effects|), l);
    }
  }

  lemma NoLinksInside(t: Tree, source: Location, es: seq<TreeEntry>, l: Location)
    requires Lists(t, source, es) && l in t && t[l].Link?
    ensures !Inside(source, l)
  {
    if Inside(source, l) {
      var j := ListIndex(t, source, es, l);
      ListPlain(t, source, []);
    }
  }

  lemma OutsideMore(before: map<Location, Image>, after: map<Location, Image>, source: Location, l: Location)
    requires Outside(before, source) && !Inside(source, l)
    requires forall k {:trigger k in after} :: k in after ==> k in before || k == l || Above(k, l)
    ensures Outside(after, source)
  {
    forall k {:trigger k in after} | k in after
      ensures !Inside(source, k)
    {
      if Above(k, l) && Inside(source, k) {
        InsideAbove(source, k, l);
      }
    }
  }

  lemma InsideAbove(a: Location, k: Location, l: Location)
    ensures Inside(a, k) && Above(k, l) ==> Inside(a, l)
  {
  }

  lemma InsideBoth(a: Location, b: Location, k: Location)
    ensures Inside(a, k) && Inside(b, k) ==> Inside(a, b) || Inside(b, a)
  {
    if Inside(a, k) && Inside(b, k) {
      assert a.path == k.path[..|a.path|] && b.path == k.path[..|b.path|];
    }
  }

  lemma LinkSeen(t: Tree, l: Location, img: Image)
    requires Closed(t) && Snapshot(t, l) == Some(img) && img.kind == LinkKind
    ensures l in t && t[l].Link?
  {
    SnapshotClosed(t, l);
  }

  /** The links of other agents to a source that a provider owns are removed; any other link blocks the move. */
  method RemoveConsumers(b: Builder, source: Location, es: seq<TreeEntry>, consumers: seq<Location>, owned: bool,
      policy: Policy)
    returns (r: Result<()>)
    requires b.Ready() && Lists(b.tree, source, es) && Outside(b.planned, source)
    modifies b
    ensures b.Ready() && old(b.effects) <= b.effects && old(b.planned).Keys <= b.planned.Keys && Outside(b.planned, source)
    ensures !owned && r.Ok? ==> b.effects == old(b.effects)
    ensures r.Ok? ==> forall c <- consumers :: c != source && policy.consumes(c) && c in b.tree && b.tree[c].Link? ==>
              owned && c !in b.Predicted()
  {
    hide *;
    var i := 0;
    while i < |consumers|
      invariant 0 <= i <= |consumers|
      invariant b.Ready() && old(b.effects) <= b.effects && old(b.planned).Keys <= b.planned.Keys && Outside(b.planned, source)
      invariant !owned ==> b.effects == old(b.effects)
      invariant forall c <- consumers[..i] :: c != source && policy.consumes(c) && c in b.tree && b.tree[c].Link? ==>
                owned && c !in b.Predicted()
    {
      var c := consumers[i];
      i := i + 1;
      assert consumers[..i] == consumers[..i - 1] + [c];
      if c == source {
        continue;
      }
      b.ReadyParts();
      ghost var observed := b.observed;
      var img := b.Read(c);
      if img.Err? {
        b.StillReady(observed);
        return Err(img.problem);
      }
      b.StillReady(observed);
      b.TreeClosed();
      if img.value.kind != LinkKind {
        LinkUnseen(b.tree, c, img.value);
        continue;
      }
      LinkSeen(b.tree, c, img.value);
      if !policy.consumes(c) {
        continue;
      }
      if !owned {
        return Err(Conflict);
      }
      b.ReadyParts();
      LeafHere(b.tree, b.effects, b.planned, c);
      NoLinksInside(b.tree, source, es, c);
      ghost var before, v := b.planned, b.Predicted();
      r := b.Remove(c);
      OutsideMore(before, b.planned, source, c);
      if r.Err? {
        return;
      }
      PutNone(v, c);
    }
    assert consumers[..i] == consumers;
    return Ok(());
  }

  lemma PutNone(v: View, l: Location)
    ensures l !in Put(v, l, None) && Put(v, l, None).Keys <= v.Keys
  {
  }

  lemma LinkUnseen(t: Tree, l: Location, img: Image)
    requires Closed(t) && Snapshot(t, l) == Some(img) && img.kind != LinkKind
    ensures l in t ==> !t[l].Link?
  {
    SnapshotClosed(t, l);
  }

  /** A lock file that is in the tree. */
  predicate LockedBy(t: Tree, l: Location) {
    l in t && t[l].File?
  }

  /** The source lock forgets the skill; that write is already part of the retirement. */
  method LeaveLock(b: Builder, source: Location, lock: Location, policy: Policy) returns (r: Result<()>)
    requires b.Ready() && Outside(b.planned, source) && !Inside(source, lock) && LockedBy(b.tree, lock)
    requires forall d, p :: policy.left(d) == Some(p) ==> p != d
    modifies b
    ensures b.Ready() && old(b.planned).Keys <= b.planned.Keys && Outside(b.planned, source)
    ensures old(b.effects) <= b.effects
    ensures r.Ok? ==> |b.effects| > |old(b.effects)| && b.effects[|b.effects| - 1].retirement
  {
    hide *;
    var data := DataAt(b.tree, lock);
    var patched := policy.left(data);
    if patched == None {
      return Err(Corrupt);
    }
    ghost var v, planned, effects := b.Predicted(), b.planned, b.effects;
    b.ReadyParts();
    r := b.Write(lock, patched.value, LOCK_MODE, true);
    OutsideMore(planned, b.planned, source, lock);
    if r.Err? {
      return;
    }
    b.ReadyParts();
    LockChanged(b.tree, effects, planned, b.effects, lock, v, b.Predicted(), data, patched.value);
    ghost var mid := b.effects;
    b.MarkRetirement();
    PrefixKept(effects, mid, b.effects);
    return Ok(());
  }

  lemma LockChanged(t: Tree, effects: seq<Effect>, planned: map<Location, Image>, more: seq<Effect>, l: Location,
      v: View, w: View, data: Bytes, patched: Bytes)
    requires Consistent(t, effects, planned) && v == ViewAt(ViewOf(t), effects, |effects|) && w == ViewAt(ViewOf(t), more, |more|)
    requires LockedBy(t, l) && l !in planned && data == DataAt(t, l) && patched != data && effects <= more
    requires Placed(v, w, l, FileEntry(ModeOr(At(v, l), LOCK_MODE), patched))
    ensures |more| > |effects|
  {
    hide *;
    PredictedAt(t, effects, planned, l);
    LockDiffers(t, l, v, w, data, patched);
    if |more| == |effects| {
      SamePrefix(effects, more);
    }
  }

  lemma SamePrefix(a: seq<Effect>, b: seq<Effect>)
    requires a <= b && |a| == |b|
    ensures a == b
  {
  }

  lemma LockDiffers(t: Tree, l: Location, v: View, w: View, data: Bytes, patched: Bytes)
    requires LockedBy(t, l) && At(v, l) == At(ViewOf(t), l) && data == DataAt(t, l) && patched != data
    requires Placed(v, w, l, FileEntry(ModeOr(At(v, l), LOCK_MODE), patched))
    ensures v != w
  {
    assert At(v, l) == Some(FileEntry(t[l].mode, data));
    assert At(w, l) != At(v, l);
  }

  lemma PrefixKept(a: seq<Effect>, b: seq<Effect>, c: seq<Effect>)
    requires a <= b && |a| < |b| && |c| == |b| && c[..|c| - 1] == b[..|b| - 1]
    ensures a <= c
  {
    assert forall i :: 0 <= i < |a| ==> a[i] == b[i] && b[i] == b[..|b| - 1][i] && c[i] == c[..|c| - 1][i];
  }

  // The whole move.

  /** The entry that was at every listed place is, at every prefix of the plan, there or at the target. */
  ghost predicate NeverLost(t: Tree, effects: seq<Effect>, source: Location, target: Location, es: seq<TreeEntry>) {
    forall k, j :: 0 <= k <= |effects| && 0 <= j < |es| ==>
      KeptAt(ViewOf(t), ViewAt(ViewOf(t), effects, k), source, target, es[j].rel)
  }

  predicate KeptAt(v0: View, v: View, source: Location, target: Location, rel: seq<string>) {
    At(v, Under(source, rel)) == At(v0, Under(source, rel)) || At(v, Under(target, rel)) == At(v0, Under(source, rel))
  }

  /** Nothing of the source is touched by the first `m` effects, after which all of it is at the target. */
  lemma CopiedBeforeRetired(t: Tree, effects: seq<Effect>, planned: map<Location, Image>, m: nat, source: Location,
      target: Location, es: seq<TreeEntry>)
    requires Consistent(t, effects, planned) && m <= |effects| && Lists(t, source, es)
    requires forall i :: 0 <= i < m ==> !Inside(source, effects[i].loc)
    requires forall j :: 0 <= j < |es| ==> Under(target, es[j].rel) !in t
    requires forall j :: 0 <= j < |es| ==>
              At(ViewAt(ViewOf(t), effects, m), Under(target, es[j].rel)) == Some(EntryOf(es[j]))
    ensures NeverLost(t, effects, source, target, es)
  {
    forall k, j | 0 <= k <= |effects| && 0 <= j < |es|
      ensures KeptAt(ViewOf(t), ViewAt(ViewOf(t), effects, k), source, target, es[j].rel)
    {
      if k <= m {
        InsideUnder(source, es[j].rel);
        ViewUntouched(ViewOf(t), effects, k, Under(source, es[j].rel));
      } else {
        TargetStays(t, effects, planned, m, k, Under(target, es[j].rel));
        SourceEntry(t, source, es, j);
      }
    }
  }

  lemma InsideUnder(l: Location, rel: seq<string>)
    ensures Inside(l, Under(l, rel))
  {
  }

  lemma TargetStays(t: Tree, effects: seq<Effect>, planned: map<Location, Image>, m: nat, k: nat, l: Location)
    requires Consistent(t, effects, planned) && m <= k <= |effects| && l !in t && At(ViewAt(ViewOf(t), effects, m), l) != None
    ensures At(ViewAt(ViewOf(t), effects, k), l) == At(ViewAt(ViewOf(t), effects, m), l)
  {
    if i :| 0 <= i < m && effects[i].loc == l {
      ViewTouched(ViewOf(t), effects, m, i);
      ViewTouched(ViewOf(t), effects, k, i);
    } else {
      ViewUntouched(ViewOf(t), effects, m, l);
    }
  }

  lemma SourceEntry(t: Tree, source: Location, es: seq<TreeEntry>, j: nat)
    requires Lists(t, source, es) && j < |es|
    ensures At(ViewOf(t), Under(source, es[j].rel)) == Some(EntryOf(es[j]))
  {
    ListingOrder(t, source, es);
    ListPlain(t, source, []);
    hide TreeList, Plain;
    assert es[j] in es;
  }

  datatype Places = Places(source: Location, from: Location, to: Location, target: Location)

  /** What the checks before the copy establish about the four places. */
  ghost predicate Apart(t: Tree, p: Places, proof: Option<Proof>) {
    && !Inside(p.source, p.target) && !Inside(p.target, p.source) && !Inside(p.source, p.to)
    && (p.source != p.from ==> p.from in t && t[p.from].Link?)
    && (proof.Some? ==> !Inside(p.source, proof.value.lock) && !Inside(p.source, proof.value.toLock) && LockedBy(t, proof.value.lock))
  }

  /** `retireSkillSource`. */
  method Retire(b: Builder, p: Places, job: Job, policy: Policy, es: seq<TreeEntry>) returns (r: Result<()>)
    requires b.Ready() && Lists(b.tree, p.source, es) && Outside(b.planned, p.source) && Apart(b.tree, p, job.proof)
    requires forall d, q :: policy.left(d) == Some(q) ==> q != d
    modifies b
    ensures b.Ready() && old(b.effects) <= b.effects && old(b.planned).Keys <= b.planned.Keys
    ensures r.Ok? ==> if p.source == p.from then Emptied(b.Predicted(), p.source) else p.from !in b.Predicted()
  {
    hide *;
    b.ReadyParts();
    ApartParts(b.tree, p, job.proof);
    if p.source != p.from {
      LeafHere(b.tree, b.effects, b.planned, p.from);
      ghost var v := b.Predicted();
      r := b.Remove(p.from);
      PutNone(v, p.from);
      return;
    }
    r := RemoveConsumers(b, p.source, es, job.consumers, job.proof.Some?, policy);
    if r.Err? {
      return;
    }
    if job.proof.Some? {
      r := LeaveLock(b, p.source, job.proof.value.lock, policy);
      if r.Err? {
        return;
      }
    }
    r := RemoveEntries(b, p.source, es);
  }

  lemma ApartParts(t: Tree, p: Places, proof: Option<Proof>)
    requires Apart(t, p, proof)
    ensures !Inside(p.source, p.target) && !Inside(p.target, p.source) && !Inside(p.source, p.to)
    ensures p.source != p.from ==> p.from in t && t[p.from].Link?
    ensures proof.Some? ==> !Inside(p.source, proof.value.lock) && !Inside(p.source, proof.value.toLock) && LockedBy(t, proof.value.lock)
  {
  }

  /** `addMoveMembership`: the destination lock lists the skill. */
  method JoinLock(b: Builder, source: Location, lock: Location, policy: Policy) returns (r: Result<()>)
    requires b.Ready() && Outside(b.planned, source) && !Inside(source, lock)
    modifies b
    ensures b.Ready() && old(b.effects) <= b.effects && old(b.planned).Keys <= b.planned.Keys && Outside(b.planned, source)
    ensures r.Ok? ==> lock !in old(b.planned)
  {
    hide *;
    b.ReadyParts();
    ghost var observed := b.observed;
    var img := b.Read(lock);
    b.StillReady(observed);
    if img.Err? {
      return Err(img.problem);
    }
    var patched := policy.joined(if img.value.kind == Absent then None else Some(DataAt(b.tree, lock)));
    if patched == None {
      return Err(Conflict);
    }
    ghost var planned := b.planned;
    r := b.Write(lock, patched.value, LOCK_MODE, true);
    OutsideMore(planned, b.planned, source, lock);
  }

  /** The copies, the destination's membership and link, and only then the retirement. */
  method MoveEntries(b: Builder, p: Places, job: Job, policy: Policy, es: seq<TreeEntry>)
    returns (r: Result<()>, ghost copied: nat)
    requires b.Ready() && b.effects == [] && b.planned == map[]
    requires Lists(b.tree, p.source, es) && Apart(b.tree, p, job.proof) && p.target !in b.tree
    requires forall d, q :: policy.left(d) == Some(q) ==> q != d
    modifies b
    ensures b.Ready() && copied <= |b.effects|
    ensures r.Ok? ==> NeverLost(b.tree, b.effects, p.source, p.target, es)
    ensures r.Ok? ==> forall j :: 0 <= j < |es| ==>
              At(b.Predicted(), Under(p.target, es[j].rel)) == At(ViewOf(b.tree), Under(p.source, es[j].rel))
    ensures r.Ok? ==> if p.source == p.from then Emptied(b.Predicted(), p.source) else p.from !in b.Predicted()
  {
    hide *;
    copied := 0;
    b.ReadyParts();
    ApartParts(b.tree, p, job.proof);
    TargetUnseen(b.tree, b.effects, b.planned, p.target);
    ghost var planned, base := b.planned, b.Predicted();
    r, base := CopyEntries(b, p.source, p.target, es);
    CopyOutside(planned, b.planned, p.source, p.target);
    copied := |b.effects|;
    if r.Err? {
      return;
    }
    ghost var effects1, planned1, v1 := b.effects, b.planned, b.Predicted();
    b.ReadyParts();
    AllCopied(b.tree, p.source, p.target, es, base, v1);
    if job.proof.Some? {
      r := JoinLock(b, p.source, job.proof.value.toLock, policy);
      copied := |b.effects|;
      if r.Err? {
        return;
      }
      if p.target != p.to {
        planned := b.planned;
        r := b.MakeLink(p.to, job.canonicalText, false);
        OutsideMore(planned, b.planned, p.source, p.to);
        copied := |b.effects|;
        if r.Err? {
          return;
        }
      }
    }
    ghost var effects2, planned2, v2 := b.effects, b.planned, b.Predicted();
    b.ReadyParts();
    r := Retire(b, p, job, policy, es);
    if r.Err? {
      return;
    }
    b.ReadyParts();
    MoveHolds(b.tree, p, es, effects1, planned1, v1, effects2, planned2, v2, b.effects, b.planned, b.Predicted());
  }

  lemma TargetUnseen(t: Tree, effects: seq<Effect>, planned: map<Location, Image>, target: Location)
    requires effects == [] && target !in t
    ensures At(ViewAt(ViewOf(t), effects, |effects|), target) == None
  {
  }

  lemma CopyOutside(before: map<Location, Image>, after: map<Location, Image>, source: Location, target: Location)
    requires before == map[] && PlansOnly(before, after, target) && !Inside(source, target) && !Inside(target, source)
    ensures Outside(after, source)
  {
    forall k {:trigger k in after} | k in after
      ensures !Inside(source, k)
    {
      if Inside(source, k) {
        InsideAbove(source, k, target);
        InsideBoth(source, target, k);
      }
    }
  }

  lemma AllCopied(t: Tree, source: Location, target: Location, es: seq<TreeEntry>, base: View, v: View)
    requires Lists(t, source, es) && v == Copied(base, target, es)
    ensures forall j :: 0 <= j < |es| ==> At(v, Under(target, es[j].rel)) == Some(EntryOf(es[j]))
  {
    ListingOrder(t, source, es);
    forall j | 0 <= j < |es|
      ensures At(v, Under(target, es[j].rel)) == Some(EntryOf(es[j]))
    {
      CopiedAt(base, target, es, Under(target, es[j].rel));
    }
  }

  lemma MoveHolds(t: Tree, p: Places, es: seq<TreeEntry>, effects1: seq<Effect>, planned1: map<Location, Image>,
      v1: View,
                  effects2: seq<Effect>, planned2: map<Location, Image>, v2: View, effects: seq<Effect>,
                      planned: map<Location, Image>, v: View)
    requires Lists(t, p.source, es) && p.target !in t
    requires Consistent(t, effects1, planned1) && Consistent(t, effects2, planned2) && Consistent(t, effects, planned)
    requires effects1 <= effects2 <= effects && Outside(planned2, p.source)
    requires v1 == ViewAt(ViewOf(t), effects1, |effects1|) && v2 == ViewAt(ViewOf(t), effects2, |effects2|)
    requires v == ViewAt(ViewOf(t), effects, |effects|)
    requires forall j :: 0 <= j < |es| ==> At(v1, Under(p.target, es[j].rel)) == Some(EntryOf(es[j]))
    ensures NeverLost(t, effects, p.source, p.target, es)
    ensures forall j :: 0 <= j < |es| ==> At(v, Under(p.target, es[j].rel)) == At(ViewOf(t), Under(p.source, es[j].rel))
  {
    hide *;
    var m1, m2 := |effects1|, |effects2|;
    PrefixViews(t, effects1, effects);
    PrefixViews(t, effects2, effects);
    OutsideEffects(t, effects2, planned2, effects, p.source);
    forall j | 0 <= j < |es|
      ensures Under(p.target, es[j].rel) !in t
      ensures At(ViewAt(ViewOf(t), effects, m2), Under(p.target, es[j].rel)) == Some(EntryOf(es[j]))
      ensures At(v, Under(p.target, es[j].rel)) == At(ViewOf(t), Under(p.source, es[j].rel))
    {
      TargetAbsent(t, p.source, p.target, es, es[j].rel);
      TargetStays(t, effects, planned, m1, m2, Under(p.target, es[j].rel));
      TargetStays(t, effects, planned, m1, |effects|, Under(p.target, es[j].rel));
      SourceEntry(t, p.source, es, j);
    }
    CopiedBeforeRetired(t, effects, planned, m2, p.source, p.target, es);
  }

  lemma PrefixViews(t: Tree, es: seq<Effect>, fs: seq<Effect>)
    requires es <= fs
    ensures ViewAt(ViewOf(t), fs, |es|) == ViewAt(ViewOf(t), es, |es|)
  {
    assert fs == es + fs[|es|..];
    ViewPrefix(ViewOf(t), es, fs[|es|..], |es|);
  }

  lemma OutsideEffects(t: Tree, es: seq<Effect>, planned: map<Location, Image>, fs: seq<Effect>, source: Location)
    requires Consistent(t, es, planned) && es <= fs && Outside(planned, source)
    ensures forall i :: 0 <= i < |es| ==> !Inside(source, fs[i].loc)
  {
    assert forall i :: 0 <= i < |es| ==> fs[i] == es[i];
    hide EffectFits, Inside;
  }

  lemma TargetAbsent(t: Tree, source: Location, target: Location, es: seq<TreeEntry>, rel: seq<string>)
    requires Lists(t, source, es) && target !in t
    ensures Under(target, rel) !in t
  {
    ClosedBoth(t);
    NothingInside(ViewOf(t), target, Under(target, rel));
  }

  // The plan of a request, and what its application keeps.

  function SourceOf(t: Tree, job: Job): Location {
    if job.from in t && t[job.from].Link? then job.source else job.from
  }

  function TargetOf(job: Job): Location {
    if job.mode == Mode.Move && job.proof.Some? then job.proof.value.canonical else job.to
  }

  /** What the lock and link lookups before a plan have established. */
  ghost predicate Sound(t: Tree, job: Job) {
    && (job.from in t && t[job.from].Link? ==> job.source != job.from)
    && (job.proof.Some? ==>
          var s, p := SourceOf(t, job), job.proof.value;
          && !Inside(s, p.lock) && !Inside(s, p.toLock) && LockedBy(t, p.lock)
          && (p.canonical.root == s.root ==> |p.canonical.path| == |s.path|))
  }

  /** Every listed entry is predicted below the target as it now is below the source. */
  ghost predicate Arrived(t: Tree, v: View, source: Location, target: Location, es: seq<TreeEntry>) {
    forall j :: 0 <= j < |es| ==> At(v, Under(target, es[j].rel)) == At(ViewOf(t), Under(source, es[j].rel))
  }

  predicate HasSkillFile(es: seq<TreeEntry>, policy: Policy) {
    exists j :: 0 <= j < |es| && es[j].rel == ["SKILL.md"] && policy.frontmatter(es[j].data)
  }

  /** The lock of a foreign destination, if there is one, does not list the skill. */
  predicate NotMember(t: Tree, job: Job, policy: Policy) {
    job.foreign.Some? && job.foreign.value in t ==> policy.member(DataAt(t, job.foreign.value)) == Some(false)
  }

  /** `rejectTargetMembership`. */
  method RejectMember(b: Builder, job: Job, policy: Policy) returns (r: Result<()>)
    requires b.Ready()
    modifies b`roots, b`observed, b`guards, b`total
    ensures b.Ready()
    ensures r.Ok? ==> NotMember(b.tree, job, policy)
    ensures r == Err(Conflict) ==> !NotMember(b.tree, job, policy)
  {
    hide *;
    b.ReadyParts();
    if job.foreign == None {
      MemberIs(b.tree, job, policy);
      return Ok(());
    }
    ghost var observed := b.observed;
    var img := b.Read(job.foreign.value);
    b.StillReady(observed);
    if img.Err? {
      return Err(img.problem);
    }
    b.TreeClosed();
    LockSeen(b.tree, job.foreign.value, img.value);
    MemberIs(b.tree, job, policy);
    if img.value.kind != Absent && policy.member(DataAt(b.tree, job.foreign.value)) != Some(false) {
      return Err(Conflict);
    }
    return Ok(());
  }

  lemma MemberIs(t: Tree, job: Job, policy: Policy)
    ensures NotMember(t, job, policy) <==>
              (job.foreign.Some? && job.foreign.value in t ==> policy.member(DataAt(t, job.foreign.value)) == Some(false))
  {
    hide DataAt;
  }

  lemma LockSeen(t: Tree, l: Location, img: Image)
    requires Closed(t) && Snapshot(t, l) == Some(img)
    ensures img.kind == Absent <==> l !in t
  {
    SnapshotClosed(t, l);
  }

  /** `planSkill`. */
  method PlanSkill(b: Builder, job: Job, policy: Policy) returns (r: Result<()>, ghost es: seq<TreeEntry>)
    requires b.Ready() && b.effects == [] && b.planned == map[] && Sound(b.tree, job)
    requires job.mode in {Mode.Copy, Mode.Move, Mode.Mirror}
    requires forall d, q :: policy.left(d) == Some(q) ==> q != d
    modifies b
    ensures b.Ready()
    ensures r.Ok? && SourceOf(b.tree, job) == job.to ==> b.effects == []
    ensures r.Ok? && SourceOf(b.tree, job) != job.to ==> NotMember(b.tree, job, policy)
    ensures r.Ok? && SourceOf(b.tree, job) != job.to ==>
              Lists(b.tree, SourceOf(b.tree, job), es) && NoSecrets(es, policy) && HasSkillFile(es, policy)
    ensures r.Ok? && SourceOf(b.tree, job) != job.to && job.mode != Mode.Mirror ==>
              Arrived(b.tree, b.Predicted(), SourceOf(b.tree, job), TargetOf(job), es)
    ensures r.Ok? && SourceOf(b.tree, job) != job.to && job.mode == Mode.Mirror ==>
              At(b.Predicted(), job.to) == Some(LinkEntry(job.sourceText)) && Outside(b.planned, SourceOf(b.tree, job))
    ensures r.Ok? && SourceOf(b.tree, job) != job.to && job.mode == Mode.Copy ==>
              Outside(b.planned, SourceOf(b.tree, job))
    ensures r.Ok? && SourceOf(b.tree, job) != job.to && job.mode == Mode.Move ==>
              && NeverLost(b.tree, b.effects, SourceOf(b.tree, job), TargetOf(job), es)
              && if SourceOf(b.tree, job) == job.from then Emptied(b.Predicted(), job.from) else job.from !in b.Predicted()
  {
    hide *;
    es := [];
    ghost var start := b.Predicted();
    b.ReadyParts();
    NothingPlanned(b.tree, b.effects);
    ghost var observed := b.observed;
    var img := b.Read(job.from);
    b.StillReady(observed);
    if img.Err? {
      return Err(img.problem), es;
    }
    b.TreeClosed();
    var source := if img.value.kind == LinkKind then job.source else job.from;
    SourceKnown(b.tree, job, img.value);
    if source == job.to {
      return Ok(()), es;
    }
    if Inside(source, job.to) || Inside(job.to, source) {
      return Err(Overlap), es;
    }
    SecretsNone(policy);
    observed := b.observed;
    var listed := ReadTree(b, source, [], [], policy);
    b.StillReady(observed);
    if listed.Err? {
      return Err(listed.problem), es;
    }
    es := listed.value;
    ListsWalked(b.tree, source, listed.value);
    var fit := CheckSkill(listed.value, policy);
    if !fit {
      return Err(Corrupt), es;
    }
    var target := TargetOf(job);
    TargetIs(b.tree, job);
    if job.mode == Mode.Move && target == source {
      return Err(Conflict), es;
    }
    r := RejectMember(b, job, policy);
    if r.Err? {
      return;
    }
    if job.mode == Mode.Mirror {
      ghost var planned := b.planned;
      r := b.MakeLink(job.to, job.sourceText, false);
      MirrorOutside(planned, b.planned, source, job);
      if r.Ok? {
        MirrorHolds(start, b.Predicted(), job);
      }
      return;
    }
    b.ReadyParts();
    observed := b.observed;
    var there := b.Read(target);
    b.StillReady(observed);
    if there.Err? {
      return Err(there.problem), es;
    }
    if there.value.kind != Absent {
      if there.value.kind != DirKind || job.mode == Mode.Move {
        return Err(Conflict), es;
      }
      observed := b.observed;
      var others := ReadTree(b, target, [], [], policy);
      b.StillReady(observed);
      if others.Err? {
        return Err(others.problem), es;
      }
      ListsWalked(b.tree, target, others.value);
      var same := SameEntriesListed(listed.value, others.value);
      if !same {
        return Err(Conflict), es;
      }
      OutsideNone(b.planned, source);
      AlreadyThere(b.tree, source, target, es, others.value, b.Predicted());
      return Ok(()), es;
    }
    AbsentSeen(b.tree, target, there.value);
    if job.mode == Mode.Copy {
      b.ReadyParts();
      TargetUnseen(b.tree, b.effects, b.planned, target);
      ghost var planned, base := b.planned, b.Predicted();
      r, base := CopyEntries(b, source, target, listed.value);
      CopyOutside(planned, b.planned, source, target);
      if r.Ok? {
        AllCopied(b.tree, source, target, es, base, b.Predicted());
        CopyArrived(b.tree, source, target, es, b.Predicted());
      }
      return;
    }
    ghost var copied;
    var places := Places(source, job.from, job.to, target);
    PlacesApart(b.tree, places, job);
    r, copied := MoveEntries(b, places, job, policy, listed.value);
    if r.Ok? {
      ArrivedAll(b.tree, b.Predicted(), source, target, es);
    }
  }

  lemma NothingPlanned(t: Tree, effects: seq<Effect>)
    ensures effects == [] ==> ViewAt(ViewOf(t), effects, |effects|) == ViewOf(t)
  {
  }

  lemma SourceKnown(t: Tree, job: Job, img: Image)
    requires Closed(t) && Snapshot(t, job.from) == Some(img)
    ensures SourceOf(t, job) == if img.kind == LinkKind then job.source else job.from
  {
    SnapshotClosed(t, job.from);
  }

  lemma OutsideNone(planned: map<Location, Image>, source: Location)
    requires planned == map[]
    ensures Outside(planned, source)
  {
  }

  lemma SecretsNone(policy: Policy)
    ensures NoSecrets([], policy)
  {
  }

  lemma ListsWalked(t: Tree, l: Location, es: seq<TreeEntry>)
    requires Closed(t) && Plain(t, l, []) && es == [] + TreeList(t, l, [])
    ensures Lists(t, l, es)
  {
  }

  lemma AbsentSeen(t: Tree, l: Location, img: Image)
    requires Closed(t) && Snapshot(t, l) == Some(img) && img.kind == Absent
    ensures l !in t
  {
    SnapshotClosed(t, l);
  }

  lemma TargetIs(t: Tree, job: Job)
    ensures TargetOf(job) == if job.mode == Mode.Move && job.proof.Some? then job.proof.value.canonical else job.to
  {
  }

  /** `validateSkill`: the first SKILL.md decides. */
  method CheckSkill(es: seq<TreeEntry>, policy: Policy) returns (ok: bool)
    ensures ok ==> HasSkillFile(es, policy)
    ensures Distinct(es) ==> (ok <==> HasSkillFile(es, policy))
  {
    for i := 0 to |es|
      invariant forall j :: 0 <= j < i ==> es[j].rel != ["SKILL.md"]
    {
      if es[i].rel == ["SKILL.md"] {
        return policy.frontmatter(es[i].data);
      }
    }
    return false;
  }

  predicate SameFile(e: TreeEntry, f: TreeEntry) {
    e.rel == f.rel && e.img.kind == f.img.kind && e.img.mode == f.img.mode && e.data == f.data
  }

  method SameEntriesListed(es: seq<TreeEntry>, fs: seq<TreeEntry>) returns (same: bool)
    ensures same <==> |es| == |fs| && forall i :: 0 <= i < |es| ==> SameFile(es[i], fs[i])
  {
    if |es| != |fs| {
      return false;
    }
    for i := 0 to |es|
      invariant forall j :: 0 <= j < i ==> SameFile(es[j], fs[j])
    {
      if !SameFile(es[i], fs[i]) {
        return false;
      }
    }
    return true;
  }

  lemma AlreadyThere(t: Tree, source: Location, target: Location, es: seq<TreeEntry>, fs: seq<TreeEntry>, v: View)
    requires Lists(t, source, es) && Lists(t, target, fs) && v == ViewOf(t)
    requires |es| == |fs| && forall i :: 0 <= i < |es| ==> SameFile(es[i], fs[i])
    ensures Arrived(t, v, source, target, es)
  {
    forall j | 0 <= j < |es|
      ensures At(v, Under(target, es[j].rel)) == At(ViewOf(t), Under(source, es[j].rel))
    {
      SourceEntry(t, source, es, j);
      SourceEntry(t, target, fs, j);
      assert SameFile(es[j], fs[j]);
    }
  }

  lemma CopyArrived(t: Tree, source: Location, target: Location, es: seq<TreeEntry>, v: View)
    requires Lists(t, source, es)
    requires forall j :: 0 <= j < |es| ==> At(v, Under(target, es[j].rel)) == Some(EntryOf(es[j]))
    ensures Arrived(t, v, source, target, es)
  {
    forall j | 0 <= j < |es|
      ensures At(v, Under(target, es[j].rel)) == At(ViewOf(t), Under(source, es[j].rel))
    {
      SourceEntry(t, source, es, j);
    }
  }

  lemma ArrivedAll(t: Tree, v: View, source: Location, target: Location, es: seq<TreeEntry>)
    requires forall j :: 0 <= j < |es| ==> At(v, Under(target, es[j].rel)) == At(ViewOf(t), Under(source, es[j].rel))
    ensures Arrived(t, v, source, target, es)
  {
  }

  lemma MirrorOutside(before: map<Location, Image>, planned: map<Location, Image>, source: Location, job: Job)
    requires before == map[] && !Inside(source, job.to)
    requires forall k {:trigger k in planned} :: k in planned ==> k in before || k == job.to || Above(k, job.to)
    ensures Outside(planned, source)
  {
    OutsideMore(before, planned, source, job.to);
  }

  lemma MirrorHolds(v: View, w: View, job: Job)
    requires (At(v, job.to) == Some(LinkEntry(job.sourceText)) && w == v) || (job.to.path != []
              && Placed(v, w, job.to, LinkEntry(job.sourceText)))
    ensures At(w, job.to) == Some(LinkEntry(job.sourceText))
  {
  }

  lemma PlacesApart(t: Tree, p: Places, job: Job)
    requires Sound(t, job) && p == Places(SourceOf(t, job), job.from, job.to, TargetOf(job)) && p.source != p.target
    requires job.mode == Mode.Move && !Inside(p.source, job.to) && !Inside(job.to, p.source)
    ensures Apart(t, p, job.proof)
  {
  }

  /** A move applied with any faults, others at work on the disk, loses nothing: wherever the run ends or the power
      fails, every entry of the source whose two places the others left alone is at its old place or at its new one. */
  method ApplyMove(s: Service, id: Id, source: Location, target: Location, es: seq<TreeEntry>, faults: seq<Fault>,
      edits: seq<Option<Disk>>)
    returns (out: Outcome, ghost seen: seq<Disk>)
    requires id in s.store && ApplyAccepts(s.store[id])
    requires NeverLost(s.disk.tree, s.store[id].effects, source, target, es)
    modifies s
    ensures forall j :: 0 <= j < |es| ==>
              LeftAlone(seen, edits, Under(source, es[j].rel)) && LeftAlone(seen, edits, Under(target, es[j].rel)) ==>
              KeptAt(ViewOf(old(s.disk.tree)), ViewOf(s.disk.tree), source, target, es[j].rel)
    ensures edits == [] ==> forall j :: 0 <= j < |es| ==> KeptAt(ViewOf(old(s.disk.tree)), ViewOf(s.disk.tree), source, target, es[j].rel)
  {
    hide *;
    ghost var start, plan := s.disk, s.store[id];
    ghost var done, tries;
    out, done, tries, seen := s.Apply(id, faults, edits);
    forall j | 0 <= j < |es|
      ensures LeftAlone(seen, edits, Under(source, es[j].rel)) && LeftAlone(seen, edits, Under(target, es[j].rel)) ==>
                KeptAt(ViewOf(start.tree), ViewOf(s.disk.tree), source, target, es[j].rel)
    {
      if LeftAlone(seen, edits, Under(source, es[j].rel)) && LeftAlone(seen, edits, Under(target, es[j].rel)) {
        KeptThere(start, plan.effects, done, seen, edits, s.disk, source, target, es, j);
      }
    }
    forall l
      ensures edits == [] ==> LeftAlone(seen, edits, l)
    {
      NobodyElse(seen, edits, l);
    }
  }

  lemma NobodyElse(seen: seq<Disk>, edits: seq<Option<Disk>>, l: Location)
    ensures edits == [] ==> LeftAlone(seen, edits, l)
  {
  }

  lemma KeptThere(start: Disk, effects: seq<Effect>, done: nat, seen: seq<Disk>, edits: seq<Option<Disk>>, now: Disk,
                  source: Location, target: Location, es: seq<TreeEntry>, j: nat)
    requires NeverLost(start.tree, effects, source, target, es) && Follows(start, effects, done, seen, edits, now) && j < |es|
    requires LeftAlone(seen, edits, Under(source, es[j].rel)) && LeftAlone(seen, edits, Under(target, es[j].rel))
    ensures KeptAt(ViewOf(start.tree), ViewOf(now.tree), source, target, es[j].rel)
  {
    hide LeftAlone, ViewOf, ViewAt, At;
    assert KeptAt(ViewOf(start.tree), ViewAt(ViewOf(start.tree), effects, done), source, target, es[j].rel);
  }
}
