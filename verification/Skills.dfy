/**
 Copying, mirroring and moving a skill (internal/agentinterop/skills.go, skill_move.go):
 a client of the builder that plans every copy before the first retirement.
 */
module Skills {
  import opened Options
  import opened FileTree
  import opened Effects
  import opened Transaction
  import opened Execution
  import opened Planner
  import opened Ordering
  import opened Listing

  /** Locks and the canonical place of a skill that a provider manages. */
  datatype Proof = Proof(lock: Location, toLock: Location, canonical: Location)

  /** `source` is `from` with a link resolved; the two texts are relative link targets; `foreign` is the lock of the
      destination when that is another root or scope. */
  datatype Job = Job(mode: Mode, source: Location, from: Location, to: Location, foreign: Option<Location>, proof: Option<Proof>,
                     sourceText: string, canonicalText: string, consumers: seq<Location>)

  /** The text checks and the lock patches, as functions of what they look at; `member` tells whether a lock lists
      the skill already, None when it does not parse. */
  datatype Policy = Policy(
    secret: (seq<string>, Bytes) -> bool,
    frontmatter: Bytes -> bool,
    member: Bytes -> Option<bool>,
    joined: Option<Bytes> -> Option<Bytes>,
    left: Bytes -> Option<Bytes>,
    consumes: Location -> bool)

  function EntryOf(e: TreeEntry): Entry {
    if e.img.kind == DirKind then DirEntry(e.img.mode) else FileEntry(e.img.mode, e.data)
  }

  /** `v` with the listed entries put below `l`. */
  function Copied(v: View, l: Location, es: seq<TreeEntry>): View {
    if es == [] then v else Put(Copied(v, l, es[..|es| - 1]), Under(l, es[|es| - 1].rel), Some(EntryOf(es[|es| - 1])))
  }

  lemma {:induction false} CopiedAt(v: View, l: Location, es: seq<TreeEntry>, k: Location)
    ensures (forall j :: 0 <= j < |es| ==> Under(l, es[j].rel) != k) ==> At(Copied(v, l, es), k) == At(v, k)
    ensures Distinct(es) ==>
              forall j :: 0 <= j < |es| && Under(l, es[j].rel) == k ==> At(Copied(v, l, es), k) == Some(EntryOf(es[j]))
  {
    if es != [] {
      CopiedAt(v, l, es[..|es| - 1], k);
      var e := es[|es| - 1];
      if Distinct(es) {
        forall j | 0 <= j < |es| && Under(l, es[j].rel) == k
          ensures At(Copied(v, l, es), k) == Some(EntryOf(es[j]))
        {
          if j < |es| - 1 {
            assert es[..|es| - 1][j] == es[j];
            UnderApart(l, es[j].rel, e.rel);
          }
        }
      }
    }
  }

  lemma UnderApart(l: Location, a: seq<string>, b: seq<string>)
    ensures Under(l, a) == Under(l, b) <==> a == b
  {
    assert (l.path + a)[|l.path|..] == a && (l.path + b)[|l.path|..] == b;
  }

  // Walking.

  lemma {:induction false} ListAllMore(t: Tree, l: Location, rel: seq<string>, names: seq<string>, n: string)
    requires |l.path| + |rel| <= MAX_DEPTH
    ensures ListAll(t, l, rel, names + [n]) == ListAll(t, l, rel, names) + TreeList(t, l, rel + [n])
    decreases |names|
  {
    hide TreeList;
    if names == [] {
      assert ([n])[1..] == [];
      assert ListAll(t, l, rel, [n]) == TreeList(t, l, rel + [n]) + ListAll(t, l, rel, []);
    } else {
      ListAllMore(t, l, rel, names[1..], n);
      assert (names + [n])[1..] == names[1..] + [n];
    }
  }

  ghost predicate NoSecrets(es: seq<TreeEntry>, policy: Policy) {
    forall e <- es :: e.img.kind == FileKind ==> !policy.secret(e.rel, e.data)
  }

  /** `tree`: the entries at and below `l`, or a refusal. */
  method ReadTree(b: Builder, l: Location, rel: seq<string>, out: seq<TreeEntry>, policy: Policy)
    returns (r: Result<seq<TreeEntry>>)
    requires b.Observing() && NoSecrets(out, policy)
    modifies b`roots, b`observed, b`guards, b`total
    ensures b.Observing() && Extends(old(b.observed), b.observed)
    ensures r.Ok? ==> Plain(b.tree, l, rel) && r.value == out + TreeList(b.tree, l, rel) && NoSecrets(r.value, policy)
    decreases MAX_DEPTH + 1 - |l.path| - |rel|
  {
    hide *;
    var at := Under(l, rel);
    var img := b.Read(at);
    if img.Err? {
      return Err(img.problem);
    }
    b.TreeClosed();
    WalkSees(b.tree, l, rel, img.value);
    var data := DataAt(b.tree, at);
    if img.value.kind != FileKind && img.value.kind != DirKind {
      return Err(Conflict);
    }
    if img.value.kind == FileKind && policy.secret(rel, data) {
      return Err(Corrupt);
    }
    if |out| >= MAX_FILES {
      return Err(Limit);
    }
    var so := out + [TreeEntry(rel, img.value, data)];
    SecretsNext(out, TreeEntry(rel, img.value, data), policy);
    var names := if img.value.kind == DirKind then Listed(Names(b.tree, at)) else [];
    var i := 0;
    ListStart(b.tree, l, rel, names);
    assert so == out + [EntryAt(b.tree, l, rel)] + ListAll(b.tree, l, rel, names[..0]);
    while i < |names|
      invariant 0 <= i <= |names|
      invariant b.Observing() && Extends(old(b.observed), b.observed)
      invariant forall j :: 0 <= j < i ==> Plain(b.tree, l, rel + [names[j]])
      invariant so == out + [EntryAt(b.tree, l, rel)] + ListAll(b.tree, l, rel, names[..i])
      invariant NoSecrets(so, policy)
    {
      label Before:
      ghost var seen := b.observed;
      var more := ReadTree(b, l, rel + [names[i]], so, policy);
      ExtendsMore(old(b.observed), seen, b.observed);
      if more.Err? {
        return more;
      }
      ListAllMore(b.tree, l, rel, names[..i], names[i]);
      assert names[..i + 1] == names[..i] + [names[i]];
      so := more.value;
      i := i + 1;
    }
    assert names[..i] == names;
    ListEnd(b.tree, l, rel, names);
    return Ok(so);
  }

  lemma WalkSees(t: Tree, l: Location, rel: seq<string>, img: Image)
    requires Closed(t) && ValidLocation(Under(l, rel)) && Snapshot(t, Under(l, rel)) == Some(img)
    ensures |l.path| + |rel| <= MAX_DEPTH && EntryAt(t, l, rel) == TreeEntry(rel, img, DataAt(t, Under(l, rel)))
    ensures img.kind == KindAt(t, Under(l, rel))
  {
    SnapshotClosed(t, Under(l, rel));
  }

  lemma SecretsNext(out: seq<TreeEntry>, e: TreeEntry, policy: Policy)
    requires NoSecrets(out, policy) && (e.img.kind == FileKind ==> !policy.secret(e.rel, e.data))
    ensures NoSecrets(out + [e], policy)
  {
  }

  lemma ExtendsMore(a: map<Location, Image>, b: map<Location, Image>, c: map<Location, Image>)
    requires Extends(a, b) && Extends(b, c)
    ensures Extends(a, c)
  {
  }

  lemma ListStart(t: Tree, l: Location, rel: seq<string>, names: seq<string>)
    requires |l.path| + |rel| <= MAX_DEPTH
    ensures ListAll(t, l, rel, []) == [] && names[..0] == []
  {
  }

  lemma ListEnd(t: Tree, l: Location, rel: seq<string>, names: seq<string>)
    requires |l.path| + |rel| <= MAX_DEPTH
    requires KindAt(t, Under(l, rel)) == DirKind || KindAt(t, Under(l, rel)) == FileKind
    requires names == if KindAt(t, Under(l, rel)) == DirKind then Listed(Names(t, Under(l, rel))) else []
    requires forall j :: 0 <= j < |names| ==> Plain(t, l, rel + [names[j]])
    ensures Plain(t, l, rel) && TreeList(t, l, rel) == [EntryAt(t, l, rel)] + ListAll(t, l, rel, names)
  {
    forall name | name in names
      ensures Plain(t, l, rel + [name])
    {
      var j :| 0 <= j < |names| && names[j] == name;
    }
    hide EntryAt, ListAll;
    ListWhole(t, l, rel, names);
  }

  lemma ListWhole(t: Tree, l: Location, rel: seq<string>, names: seq<string>)
    requires |l.path| + |rel| <= MAX_DEPTH
    requires KindAt(t, Under(l, rel)) == DirKind || KindAt(t, Under(l, rel)) == FileKind
    requires names == if KindAt(t, Under(l, rel)) == DirKind then Listed(Names(t, Under(l, rel))) else []
    ensures TreeList(t, l, rel) == [EntryAt(t, l, rel)] + ListAll(t, l, rel, names)
  {
    hide EntryAt, Names;
  }

  // Copying.

  /** Nothing is at or below a location that closed contents do not have. */
  lemma NothingInside(v: View, l: Location, k: Location)
    requires ClosedView(v) && l !in v && Inside(l, k)
    ensures k !in v
  {
    if k in v {
      assert k != l ==> |l.path| < |k.path|;
      assert |l.path| < |k.path| ==> Upto(k, |l.path|) == l;
      if |l.path| < |k.path| {
        AncestorInClosed(v, k, |l.path|);
      }
    }
  }

  /** Every planned location outside `planned0` lies in the target or above it. */
  ghost predicate PlansOnly(planned0: map<Location, Image>, planned: map<Location, Image>, target: Location) {
    forall k {:trigger k in planned} :: k in planned ==> k in planned0 || Inside(target, k) || Above(k, target)
  }

  /** `v` is the copy of the first `i` entries below `target`, over `v0` with the directories above `target`. */
  ghost predicate CopiedSoFar(v0: View, base: View, v: View, target: Location, es: seq<TreeEntry>, i: nat)
    requires i <= |es|
  {
    if i == 0 then v == v0 else v == Copied(base, target, es[..i]) && WithParents(v0, base, target)
  }

  /** `es` is the listing of a plain location. */
  ghost predicate Lists(t: Tree, source: Location, es: seq<TreeEntry>) {
    Closed(t) && Plain(t, source, []) && es == TreeList(t, source, [])
  }

  /** The copy of a listing, entry by entry. */
  method CopyEntries(b: Builder, source: Location, target: Location, es: seq<TreeEntry>)
    returns (r: Result<()>, ghost base: View)
    requires b.Ready() && Lists(b.tree, source, es) && At(b.Predicted(), target) == None
    modifies b
    ensures b.Ready() && old(b.effects) <= b.effects && old(b.planned).Keys <= b.planned.Keys
    ensures PlansOnly(old(b.planned), b.planned, target)
    ensures r.Ok? ==> WithParents(old(b.Predicted()), base, target) && b.Predicted() == Copied(base, target, es)
  {
    hide *;
    var i := 0;
    ghost var v0 := b.Predicted();
    base := v0;
    b.ReadyParts();
    PlannableClosed(b.tree, b.effects);
    CopyStarts(b.tree, source, target, es, v0, b.planned);
    while i < |es|
      invariant 0 <= i <= |es|
      invariant b.Ready() && old(b.effects) <= b.effects && old(b.planned).Keys <= b.planned.Keys
      invariant PlansOnly(old(b.planned), b.planned, target)
      invariant CopiedSoFar(v0, base, b.Predicted(), target, es, i)
    {
      var at := Under(target, es[i].rel);
      ghost var v, planned := b.Predicted(), b.planned;
      b.ReadyParts();
      PlannableClosed(b.tree, b.effects);
      SpotFree(b.tree, source, target, es, i, v0, base, v);
      if es[i].img.kind == DirKind {
        r := b.MakeDir(at, es[i].img.mode);
      } else {
        r := b.Write(at, es[i].data, es[i].img.mode, false);
      }
      PlansMore(old(b.planned), planned, b.planned, target, es[i].rel);
      if r.Err? {
        return;
      }
      EntryPlaced(v, b.Predicted(), at, es[i]);
      base := NextCopied(b.tree, source, target, es, i, v0, base, v, b.Predicted());
      i := i + 1;
    }
    CopyEnds(v0, base, b.Predicted(), target, es);
    return Ok(()), base;
  }

  lemma CopyStarts(t: Tree, source: Location, target: Location, es: seq<TreeEntry>, v: View,
      planned: map<Location, Image>)
    requires Lists(t, source, es)
    ensures CopiedSoFar(v, v, v, target, es, 0) && PlansOnly(planned, planned, target) && |es| > 0
  {
    ListHead(t, source, []);
  }

  /** Nothing is at the next target yet. */
  lemma SpotFree(t: Tree, source: Location, target: Location, es: seq<TreeEntry>, i: nat, v0: View, base: View, v: View)
    requires Lists(t, source, es) && i < |es| && CopiedSoFar(v0, base, v, target, es, i)
    requires ClosedView(v0) && At(v0, target) == None
    ensures At(v, Under(target, es[i].rel)) == None
  {
    var k := Under(target, es[i].rel);
    NothingInside(v0, target, k);
    if i > 0 {
      ListingOrder(t, source, es);
      CopiedAt(base, target, es[..i], k);
      forall j | 0 <= j < i
        ensures Under(target, es[..i][j].rel) != k
      {
        UnderApart(target, es[j].rel, es[i].rel);
      }
      assert !Above(k, target);
      assert At(base, k) == At(v0, k);
    }
  }

  /** A listing is distinct and true, and starts at the top. */
  lemma ListingOrder(t: Tree, source: Location, es: seq<TreeEntry>)
    requires Lists(t, source, es)
    ensures |es| > 0 && es[0] == EntryAt(t, source, []) && es[0].rel == [] && Distinct(es)
    ensures forall j :: 0 <= j < |es| ==> es[j] == EntryAt(t, source, es[j].rel)
  {
    var names := ListShape(t, source, []);
    ListHead(t, source, []);
    hide EntryAt, TreeList, Plain;
    var rest := es[1..];
    assert forall j :: 0 < j < |es| ==> es[j] == rest[j - 1];
  }

  /** Each entry but the first comes after that of the location above it. */
  lemma ParentBefore(t: Tree, source: Location, es: seq<TreeEntry>, i: nat) returns (j: nat)
    requires Lists(t, source, es) && 0 < i < |es|
    ensures j < i && es[i].rel != [] && es[j].rel == es[i].rel[..|es[i].rel| - 1]
  {
    var names := ListShape(t, source, []);
    ListHead(t, source, []);
    var rest, p := es[1..], es[i].rel;
    assert es == [EntryAt(t, source, [])] + rest;
    hide EntryAt, TreeList, Plain;
    assert Anchored(rest, [], i - 1) && rest[i - 1].rel == p;
    j := 0;
    if p[..|p| - 1] != [] {
      var m :| 0 <= m < i - 1 && rest[m].rel == p[..|p| - 1];
      j := m + 1;
    }
  }

  lemma EntryPlaced(v: View, w: View, l: Location, e: TreeEntry)
    requires At(v, l) == None
    requires if e.img.kind == DirKind
             then (IsDir(At(v, l)) && w == v) || Placed(v, w, l, DirEntry(e.img.mode))
             else Placed(v, w, l, FileEntry(ModeOr(At(v, l), e.img.mode), e.data))
    ensures Placed(v, w, l, EntryOf(e))
  {
    hide Placed;
  }

  /** One more entry copied. */
  lemma NextCopied(t: Tree, source: Location, target: Location, es: seq<TreeEntry>, i: nat, v0: View, base: View,
      v: View, w: View)
    returns (base': View)
    requires Lists(t, source, es) && i < |es| && CopiedSoFar(v0, base, v, target, es, i) && ClosedView(v)
    requires At(v, Under(target, es[i].rel)) == None && Placed(v, w, Under(target, es[i].rel), EntryOf(es[i]))
    ensures CopiedSoFar(v0, base', w, target, es, i + 1)
  {
    hide *;
    ListingOrder(t, source, es);
    base' := base;
    if i == 0 {
      base' := w - {target};
      FirstCopied(v, v0, base, w, target, es);
    } else {
      ParentCopied(t, source, target, es, i, v0, base, v);
      PlacedExactly(v, w, Under(target, es[i].rel), EntryOf(es[i]));
      CopiedMore(v0, base, v, target, es, i);
    }
  }

  lemma FirstCopied(v: View, v0: View, base: View, w: View, target: Location, es: seq<TreeEntry>)
    requires |es| > 0 && es[0].rel == [] && CopiedSoFar(v0, base, v, target, es, 0)
    requires At(v, Under(target, es[0].rel)) == None && Placed(v, w, Under(target, es[0].rel), EntryOf(es[0]))
    ensures CopiedSoFar(v0, w - {target}, w, target, es, 1)
  {
    assert Under(target, []) == target by { assert target.path + [] == target.path; }
    var base' := w - {target};
    assert es[..1] == [es[0]] && es[..1][..0] == [];
    FirstBase(v0, w, target, EntryOf(es[0]));
    assert At(w, target) == Some(EntryOf(es[0]));
    hide EntryOf, WithParents, Placed;
    assert w == Put(base', target, Some(EntryOf(es[0])));
    assert Copied(base', target, es[..1]) == Put(Copied(base', target, []), target, Some(EntryOf(es[0])));
  }

  lemma CopiedMore(v0: View, base: View, v: View, target: Location, es: seq<TreeEntry>, i: nat)
    requires 0 < i < |es| && CopiedSoFar(v0, base, v, target, es, i)
    ensures CopiedSoFar(v0, base, Put(v, Under(target, es[i].rel), Some(EntryOf(es[i]))), target, es, i + 1)
  {
    assert es[..i + 1][..i] == es[..i];
    hide EntryOf, WithParents;
  }

  lemma FirstBase(v: View, w: View, l: Location, e: Entry)
    requires At(v, l) == None && Placed(v, w, l, e)
    ensures WithParents(v, w - {l}, l)
  {
    forall k {:trigger At(w - {l}, k)} | !Above(k, l)
      ensures At(w - {l}, k) == At(v, k)
    {
      assert k != l ==> At(w, k) == At(v, k);
    }
  }

  lemma ParentCopied(t: Tree, source: Location, target: Location, es: seq<TreeEntry>, i: nat, v0: View, base: View,
      v: View)
    requires Lists(t, source, es) && 0 < i < |es| && CopiedSoFar(v0, base, v, target, es, i)
    ensures Under(target, es[i].rel).path != [] && IsDir(At(v, Parent(Under(target, es[i].rel))))
  {
    hide *;
    var j := DirBefore(t, source, es, i);
    ListingOrder(t, source, es);
    CopiedHas(v0, base, v, target, es, i, j);
    UnderParent(target, es[i].rel);
    DirEntryOf(es[j]);
  }

  lemma CopiedHas(v0: View, base: View, v: View, target: Location, es: seq<TreeEntry>, i: nat, j: nat)
    requires j < i <= |es| && Distinct(es) && CopiedSoFar(v0, base, v, target, es, i)
    ensures At(v, Under(target, es[j].rel)) == Some(EntryOf(es[j]))
  {
    CopiedAt(base, target, es[..i], Under(target, es[j].rel));
    hide Copied, EntryOf;
    assert Distinct(es[..i]) && es[..i][j] == es[j];
  }

  lemma DirEntryOf(e: TreeEntry)
    requires e.img.kind == DirKind
    ensures Some(EntryOf(e)) == Some(DirEntry(e.img.mode)) && IsDir(Some(EntryOf(e)))
  {
  }

  lemma UnderParent(l: Location, rel: seq<string>)
    requires rel != []
    ensures Under(l, rel).path != [] && Parent(Under(l, rel)) == Under(l, rel[..|rel| - 1])
  {
    assert (l.path + rel)[..|l.path + rel| - 1] == l.path + rel[..|rel| - 1];
  }

  /** The directory an entry is in was listed before it. */
  lemma DirBefore(t: Tree, source: Location, es: seq<TreeEntry>, i: nat) returns (j: nat)
    requires Lists(t, source, es) && 0 < i < |es|
    ensures j < i && es[i].rel != [] && es[j].rel == es[i].rel[..|es[i].rel| - 1] && es[j].img.kind == DirKind
  {
    j := ParentBefore(t, source, es, i);
    ListPlain(t, source, []);
    ListingOrder(t, source, es);
    hide Plain, TreeList, Distinct;
    UnderParent(source, es[i].rel);
    assert es[i] in es && Hangs(t, Under(source, es[i].rel));
  }

  /** With a directory above it, an entry is placed without touching anything else. */
  lemma PlacedExactly(v: View, w: View, l: Location, e: Entry)
    requires ClosedView(v) && l.path != [] && IsDir(At(v, Parent(l))) && Placed(v, w, l, e)
    ensures w == Put(v, l, Some(e))
  {
    DirsAbove(v, l);
    forall k
      ensures At(w, k) == At(Put(v, l, Some(e)), k)
    {
      if Above(k, l) {
        assert IsDir(At(v, k));
      }
    }
    SameEntries(w, Put(v, l, Some(e)));
  }

  lemma SameEntries(v: View, w: View)
    requires forall k :: At(v, k) == At(w, k)
    ensures v == w
  {
    forall k
      ensures k in v <==> k in w
      ensures k in v ==> v[k] == w[k]
    {
      assert At(v, k) == At(w, k);
    }
  }

  lemma PlansMore(planned0: map<Location, Image>, before: map<Location, Image>, after: map<Location, Image>,
      target: Location, rel: seq<string>)
    requires PlansOnly(planned0, before, target)
    requires forall k {:trigger k in after} :: k in after ==>
              k in before || k == Under(target, rel) || Above(k, Under(target, rel))
    ensures PlansOnly(planned0, after, target)
  {
    forall k {:trigger k in after} | k in after
      ensures k in planned0 || Inside(target, k) || Above(k, target)
    {
      if Above(k, Under(target, rel)) {
        assert |k.path| >= |target.path| ==> target.path <= k.path;
        assert |k.path| < |target.path| ==> k.path == target.path[..|k.path|];
      }
    }
  }

  lemma CopyEnds(v0: View, base: View, v: View, target: Location, es: seq<TreeEntry>)
    requires CopiedSoFar(v0, base, v, target, es, |es|) && |es| > 0
    ensures v == Copied(base, target, es) && WithParents(v0, base, target)
  {
    assert es[..|es|] == es;
  }
}
