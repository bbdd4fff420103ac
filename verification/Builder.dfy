/**
 The plan builder (internal/agentinterop/builder.go): memoised observations that become guards,
 and an ordered list of effects with the image each location will have.
 */
module Planner {
  import opened Options
  import opened FileTree
  import opened Effects
  import opened Transaction
  import opened Execution

  const MAX_TOTAL := 33554432

  datatype Problem =
    | BadLocation | Unreadable | Limit | Conflict | ScopeRoot | Overlap | Collision | AbsoluteLink
    | Unconfirmed | NotApplied | Stale | Corrupt

  datatype Result<+T> = Ok(value: T) | Err(problem: Problem)

  function Lower(c: char): char {
    if 'A' <= c <= 'Z' then (c as int + 32) as char else c
  }

  function Fold(s: string): string {
    seq(|s|, i requires 0 <= i < |s| => Lower(s[i]))
  }

  /** A sibling of `l` in the observed tree differs from it only in case. */
  predicate Collides(t: Tree, l: Location)
    requires l.path != []
  {
    Parent(l) in t && t[Parent(l)].Dir? &&
    exists name <- Names(t, Parent(l)) :: name != Base(l) && Fold(name) == Fold(Base(l))
  }

  /** Some observation on the way to `l` (or `l` itself) is an error: a blocked path or an oversized entry. */
  ghost predicate Unlistable(t: Tree, l: Location) {
    exists n {:trigger Upto(l, n)} :: 0 <= n <= |l.path| && (n > 0 || l.path == []) && Snapshot(t, Upto(l, n)) == None
  }

  lemma UnlistableBelow(t: Tree, l: Location)
    requires |l.path| > 1
    ensures Unlistable(t, Parent(l)) ==> Unlistable(t, l)
  {
    if n {:trigger Upto(Parent(l), n)} :|
         0 <= n <= |Parent(l).path| && (n > 0 || Parent(l).path == []) && Snapshot(t, Upto(Parent(l), n)) == None {
      assert Upto(Parent(l), n) == Upto(l, n);
    }
  }

  /** What stops `change` from planning an entry at `l`: something it must read is an error,
      or a missing `l` would sit beside a name that differs only in case. */
  ghost predicate Obstructed(t: Tree, l: Location) {
    Unlistable(t, l) || (l.path != [] && l !in t && (Unlistable(t, Parent(l)) || Collides(t, l)))
  }

  /** After images as the callers of `change` write them. */
  predicate Draft(after: Image) {
    && after.identity == None && after.blob == None
    && match after.kind
       case Absent => after == ABSENT
       case LinkKind => after.mode == LINK_MODE
       case _ => after.link == ""
  }

  function Filled(after: Image, data: Bytes): Image {
    match after.kind
    case FileKind => after.(digest := OfBytes(data), blob := Some(data))
    case LinkKind => after.(digest := OfLink(after.link))
    case _ => after
  }

  function DataAt(t: Tree, l: Location): Bytes {
    if l in t && t[l].File? then t[l].data else []
  }

  /** Observations are what the tree shows, guards are the observations in the order they were made,
      and everything above an observed location was observed too. */
  ghost predicate Accurate(tree: Tree, roots: map<string, nat>, observed: map<Location, Image>,
      guards: seq<Observation>) {
    && Closed(tree)
    && RootsHold(tree, roots)
    && (forall l {:trigger l in observed} :: l in observed ==>
          Snapshot(tree, l) == Some(observed[l]) && FirstGuard(guards, l) == Some(observed[l]) && l.root in roots)
    && (forall l {:trigger Parent(l)} :: l in observed && |l.path| > 1 ==> Parent(l) in observed)
    && (forall k :: 0 <= k < |guards| ==> guards[k].loc in observed && observed[guards[k].loc] == guards[k].image)
  }

  lemma {:induction false} ObservedAbove(tree: Tree, roots: map<string, nat>, observed: map<Location, Image>,
      guards: seq<Observation>, l: Location, n: nat)
    requires Accurate(tree, roots, observed, guards) && l in observed && 0 < n <= |l.path|
    ensures Upto(l, n) in observed
    decreases |l.path|
  {
    if n == |l.path| {
      assert Upto(l, n) == l;
    } else {
      ObservedAbove(tree, roots, observed, guards, Parent(l), n);
      assert Upto(Parent(l), n) == Upto(l, n);
    }
  }

  lemma ObservedListable(tree: Tree, roots: map<string, nat>, observed: map<Location, Image>, guards: seq<Observation>,
      l: Location)
    requires Accurate(tree, roots, observed, guards) && l in observed
    ensures !Unlistable(tree, l)
  {
    forall n {:trigger Upto(l, n)} | 0 <= n <= |l.path| && (n > 0 || l.path == [])
      ensures Snapshot(tree, Upto(l, n)).Some?
    {
      if n == 0 {
        assert Upto(l, n) == l;
      } else {
        ObservedAbove(tree, roots, observed, guards, l, n);
      }
    }
  }

  lemma ObservedTells(tree: Tree, roots: map<string, nat>, observed: map<Location, Image>, guards: seq<Observation>,
      l: Location)
    requires Accurate(tree, roots, observed, guards) && l in observed
    ensures RootIsDir(tree, l) && Snapshot(tree, l) == Some(observed[l])
  {
    assert l.root in roots;
  }

  lemma RootAdded(tree: Tree, roots: map<string, nat>, observed: map<Location, Image>, guards: seq<Observation>,
      l: Location)
    requires Accurate(tree, roots, observed, guards) && RootIsDir(tree, l)
    ensures Location(l.root, []) in tree && Accurate(tree, roots[l.root := tree[Location(l.root, [])].id], observed, guards)
  {
  }

  lemma RootAbove(tree: Tree, l: Location)
    requires l.path != []
    ensures RootIsDir(tree, Parent(l)) <==> RootIsDir(tree, l)
  {
  }

  lemma UnlistableHere(t: Tree, l: Location)
    requires Snapshot(t, l) == None
    ensures Unlistable(t, l)
  {
    assert Upto(l, |l.path|) == l;
  }

  /** What one accurate observation tells. */
  lemma PresentIs(tree: Tree, roots: map<string, nat>, observed: map<Location, Image>, guards: seq<Observation>,
      l: Location)
    requires Accurate(tree, roots, observed, guards) && l in observed
    ensures observed[l] == ImageAt(tree, l) && Snapshot(tree, l) == Some(observed[l])
    ensures |DataAt(tree, l)| <= MAX_BYTES && !Unlistable(tree, l)
    ensures observed[l].kind == KindAt(tree, l)
  {
    ObservedListable(tree, roots, observed, guards, l);
    SnapshotClosed(tree, l);
  }

  lemma CollidesInDir(t: Tree, l: Location)
    requires l.path != []
    ensures Collides(t, l) ==> KindAt(t, Parent(l)) == DirKind
  {
  }

  ghost predicate EffectFits(tree: Tree, e: Effect) {
    && e.loc.path != [] && ValidLocation(e.loc)
    && SameImage(ImageAt(tree, e.loc), e.before)
    && Stored(e.before).Some? && |Payload(e.before)| <= MAX_BYTES
    && Normal(e.after)
    && !SameContent(e.before, e.after)
  }

  /** `planned` is exactly what the effects, one for each location, leave behind. */
  ghost predicate Consistent(tree: Tree, effects: seq<Effect>, planned: map<Location, Image>) {
    && (forall i :: 0 <= i < |effects| ==>
          EffectFits(tree, effects[i]) && effects[i].loc in planned && planned[effects[i].loc] == effects[i].after)
    && (forall l {:trigger l in planned} :: l in planned ==> exists i :: 0 <= i < |effects| && effects[i].loc == l)
    && (forall i, j :: 0 <= i < j < |effects| ==> effects[i].loc != effects[j].loc)
  }

  /** Each step can be carried out after the ones before it. */
  ghost predicate Plannable(tree: Tree, effects: seq<Effect>) {
    && (forall i :: 0 <= i < |effects| ==> Supported(effects[i].before.kind, effects[i].after.kind))
    && (forall k :: 0 <= k <= |effects| ==> ClosedView(ViewAt(ViewOf(tree), effects, k)))
  }

  /** A location has its planned entry if an effect names it, and its present one otherwise. */
  lemma PredictedAt(tree: Tree, effects: seq<Effect>, planned: map<Location, Image>, l: Location)
    requires Consistent(tree, effects, planned)
    ensures At(ViewAt(ViewOf(tree), effects, |effects|), l) ==
            if l in planned then Wanted(planned[l], Payload(planned[l])) else At(ViewOf(tree), l)
  {
    if l in planned {
      var i :| 0 <= i < |effects| && effects[i].loc == l;
      ViewTouched(ViewOf(tree), effects, |effects|, i);
    } else {
      ViewUntouched(ViewOf(tree), effects, |effects|, l);
    }
  }

  ghost predicate Extends(a: map<Location, Image>, b: map<Location, Image>) {
    a.Keys <= b.Keys && forall l <- a :: b[l] == a[l]
  }

  /** The bytes read when `l` and what is above it are observed for the first time. */
  function PathWeight(tree: Tree, l: Location): nat
    decreases |l.path|
  {
    |DataAt(tree, l)| + if |l.path| > 1 then PathWeight(tree, Parent(l)) else 0
  }

  /** How many observations that is, at most. */
  function Span(l: Location): nat {
    if l.path == [] then 1 else |l.path|
  }

  /** The same for planning a change at `l`, which may look at its parent too. */
  function Heft(tree: Tree, l: Location): nat {
    PathWeight(tree, l) + if l.path != [] then PathWeight(tree, Parent(l)) else 0
  }

  function Reads(l: Location): nat {
    Span(l) + if l.path != [] then Span(Parent(l)) else 0
  }

  class Builder {
    const tree: Tree
    var roots: map<string, nat>
    var observed: map<Location, Image>
    var guards: seq<Observation>
    var effects: seq<Effect>
    var planned: map<Location, Image>
    var total: nat

    constructor (tree: Tree)
      requires Closed(tree)
      ensures Ready() && Valid() && Plannable(tree, effects) && effects == [] && planned == map[] && this.tree == tree
      ensures total == 0 && observed == map[]
      ensures Predicted() == ViewOf(tree)
    {
      this.tree := tree;
      roots, observed, guards, effects, planned, total := map[], map[], [], [], map[], 0;
      new;
      ClosedBoth(tree);
    }

    ghost predicate Observing()
      reads this
    {
      Accurate(tree, roots, observed, guards)
    }

    ghost predicate Valid()
      reads this
    {
      && Observing()
      && Consistent(tree, effects, planned)
      && planned.Keys <= observed.Keys
    }

    /** What holds between the operations of a client. */
    ghost predicate Ready()
      reads this
    {
      Valid() && Plannable(tree, effects)
    }

    ghost function Predicted(): View
      reads `effects
    {
      ViewAt(ViewOf(tree), effects, |effects|)
    }

    /** What `save` writes. */
    function Saved(mode: Mode, parent: Option<Id>): Record
      reads this
    {
      Record(mode, Planned, roots, guards, effects, 0, None, parent)
    }

    /** Of what has been planned, whether or not each step can be carried out after the ones before it. */
    lemma SavedIs(mode: Mode, parent: Option<Id>)
      requires Valid()
      ensures var u := Saved(mode, parent);
        && u.effects == effects && GuardsOk(tree, u) && (Built(tree, u) <==> Plannable(tree, effects))
        && forall k :: 0 <= k < |u.effects| ==> Stored(u.effects[k].after).Some? && Stored(u.effects[k].before).Some?
    {
      GuardsCover(tree, Saved(mode, parent), observed, planned);
      PlannableIsOk(tree, effects, planned);
      hide Consistent, Plannable, GuardsOk, PlanOk;
    }

    /** What has been planned is a built plan. */
    lemma SavedIsBuilt(mode: Mode, parent: Option<Id>)
      requires Valid() && Plannable(tree, effects)
      ensures Built(tree, Saved(mode, parent)) && Saved(mode, parent).effects == effects
    {
      ReadyIsBuilt(tree, Saved(mode, parent), observed, planned);
    }

    method Read(l: Location) returns (r: Result<Image>)
      requires Observing()
      modifies this`roots, this`observed, this`guards, this`total
      ensures Observing()
      ensures Extends(old(observed), observed)
      ensures forall k {:trigger k in observed} :: k in observed ==> k in old(observed) || |k.path| <= |l.path|
      ensures r.Ok? ==> ValidLocation(l) && l in observed && RootIsDir(tree, l) && Snapshot(tree, l) == Some(r.value)
      ensures r == Err(BadLocation) ==> !ValidLocation(l)
      ensures r == Err(Unreadable) ==> Unlistable(tree, l)
      ensures r == Err(ScopeRoot) ==> !RootIsDir(tree, l)
      ensures r.Ok? || r.problem in {BadLocation, Unreadable, ScopeRoot, Limit}
      ensures total <= old(total) + PathWeight(tree, l) && |observed| <= |old(observed)| + Span(l)
      ensures r == Err(Limit) ==>
                old(total) + PathWeight(tree, l) > MAX_TOTAL || |old(observed)| + Span(l) > 4 * MAX_FILES
      decreases |l.path|
    {
      hide Accurate, Unlistable, Snapshot, DataAt, ValidLocation, RootIsDir;
      if !ValidLocation(l) {
        return Err(BadLocation);
      }
      if l in observed {
        ObservedTells(tree, roots, observed, guards, l);
        return Ok(observed[l]);
      }
      if |l.path| > 1 {
        var above := Read(Parent(l));
        if above.Err? {
          ValidAbove(l);
          RootAbove(tree, l);
          UnlistableBelow(tree, l);
          return above;
        }
      }
      if !RootIsDir(tree, l) {
        return Err(ScopeRoot);
      }
      RootAdded(tree, roots, observed, guards, l);
      roots := roots[l.root := tree[Location(l.root, [])].id];
      var v := Snapshot(tree, l);
      if v == None {
        UnlistableHere(tree, l);
        return Err(Unreadable);
      }
      total := total + |DataAt(tree, l)|;
      if total > MAX_TOTAL || |observed| > 4 * MAX_FILES {
        return Err(Limit);
      }
      Observe(l, v.value);
      return Ok(v.value);
    }

    method Observe(l: Location, v: Image)
      requires Observing() && l !in observed && Snapshot(tree, l) == Some(v)
      requires (|l.path| > 1 ==> Parent(l) in observed) && l.root in roots
      modifies this`observed, this`guards
      ensures Observing() && observed == old(observed)[l := v]
    {
      FirstGuardKnown(guards, l);
      FirstGuardGrows(guards, Observation(l, v));
      observed := observed[l := v];
      guards := guards + [Observation(l, v)];
    }

    method Current(l: Location) returns (r: Result<Image>)
      requires Valid()
      modifies this`roots, this`observed, this`guards, this`total
      ensures Valid() && Extends(old(observed), observed)
      ensures l in planned ==> r == Ok(planned[l])
      ensures l !in planned && r.Ok? ==> l in observed && ValidLocation(l) && Snapshot(tree, l) == Some(r.value)
      ensures r.Ok? ==> ValidLocation(l) && RootIsDir(tree, l) && Shows(r.value, At(Predicted(), l))
      ensures r.Ok? || r.problem in {BadLocation, Unreadable, ScopeRoot, Limit}
      ensures r == Err(BadLocation) ==> !ValidLocation(l)
      ensures r == Err(Unreadable) ==> Unlistable(tree, l)
      ensures r == Err(ScopeRoot) ==> !RootIsDir(tree, l)
      ensures total <= old(total) + PathWeight(tree, l) && |observed| <= |old(observed)| + Span(l)
      ensures r == Err(Limit) ==>
                old(total) + PathWeight(tree, l) > MAX_TOTAL || |old(observed)| + Span(l) > 4 * MAX_FILES
    {
      PredictedAt(tree, effects, planned, l);
      if l in planned {
        PlannedImage(tree, effects, planned, l);
        return Ok(planned[l]);
      }
      hide Consistent, Accurate, ViewAt;
      r := Read(l);
      if r.Ok? {
        PresentImage(tree, l);
      }
    }

    /** The first half of `change`: what is at `l`, and whether an entry may be planned there. */
    method Before(l: Location) returns (r: Result<Image>)
      requires Valid()
      modifies this`roots, this`observed, this`guards, this`total
      ensures Valid() && Extends(old(observed), observed)
      ensures r.Ok? ==> l.path != [] && ValidLocation(l) && RootIsDir(tree, l) && l in observed && l !in planned
      ensures r.Ok? ==> r.value == ImageAt(tree, l) && |DataAt(tree, l)| <= MAX_BYTES
      ensures r == Err(Overlap) ==> l in planned
      ensures r.Ok? ==> !Obstructed(tree, l)
      ensures r == Err(Collision) || r == Err(Unreadable) ==> Obstructed(tree, l)
      ensures r == Err(BadLocation) ==> !ValidLocation(l)
      ensures r == Err(ScopeRoot) ==> l.path == [] || !RootIsDir(tree, l)
      ensures r.Ok? || r.problem in {BadLocation, Unreadable, ScopeRoot, Limit, Overlap, Collision}
      ensures total <= old(total) + Heft(tree, l) && |observed| <= |old(observed)| + Reads(l)
      ensures r == Err(Limit) ==> old(total) + Heft(tree, l) > MAX_TOTAL || |old(observed)| + Reads(l) > 4 * MAX_FILES
    {
      hide Consistent, Accurate, ViewAt, ImageAt, DataAt, Snapshot, Collides, Unlistable, ValidLocation, PathWeight, Span;
      if l.path == [] {
        return Err(ScopeRoot);
      }
      r := Current(l);
      if r.Err? {
        return;
      }
      if l in planned {
        return Err(Overlap);
      }
      PresentIs(tree, roots, observed, guards, l);
      ValidAbove(l);
      if r.value.kind == Absent {
        var above := Read(Parent(l));
        if above.Err? {
          return Err(above.problem);
        }
        PresentIs(tree, roots, observed, guards, Parent(l));
        CollidesInDir(tree, l);
        if above.value.kind == DirKind && Collides(tree, l) {
          return Err(Collision);
        }
      }
    }

    /** `change`: at most one effect for a location; false means the content is already there. */
    method Change(l: Location, after: Image, data: Bytes) returns (r: Result<bool>)
      requires Valid() && Draft(after)
      modifies this
      ensures Valid() && Extends(old(observed), observed)
      ensures r.Err? || !r.value ==> effects == old(effects) && planned == old(planned)
      ensures r.Ok? ==> l.path != [] && ValidLocation(l) && RootIsDir(tree, l) && l !in old(planned)
      ensures r.Ok? ==> (r.value <==> !SameContent(ImageAt(tree, l), Filled(after, data)))
      ensures r.Ok? && r.value ==>
                effects == old(effects) + [EffectFor(tree, l, after, data)] && planned == old(planned)[l := Filled(after, data)]
      ensures r.Ok? ==> Predicted() == Put(old(Predicted()), l, Wanted(after, data))
      ensures r.Ok? && old(Plannable(tree, effects)) && Fitting(tree, old(Predicted()), l, after, data) ==>
                Plannable(tree, effects)
      ensures r.Err? && old(Plannable(tree, effects)) ==> Plannable(tree, effects)
      ensures forall k {:trigger k in planned} :: k in planned ==> k in old(planned) || k == l
      ensures r == Err(Overlap) ==> l in old(planned)
      ensures r.Ok? ==> !Obstructed(tree, l)
      ensures r == Err(Collision) || r == Err(Unreadable) ==> Obstructed(tree, l)
      ensures r == Err(BadLocation) ==> !ValidLocation(l)
      ensures r == Err(ScopeRoot) ==> l.path == [] || !RootIsDir(tree, l)
      ensures r.Ok? || r.problem in {BadLocation, Unreadable, ScopeRoot, Limit, Overlap, Collision}
      ensures total <= old(total) + Heft(tree, l) && |observed| <= |old(observed)| + Reads(l) && |effects| <= |old(effects)| + 1
      ensures r == Err(Limit) ==>
                || old(total) + Heft(tree, l) > MAX_TOTAL || |old(observed)| + Reads(l) > 4 * MAX_FILES
                || |old(effects)| >= 4 * MAX_FILES || (after.kind == FileKind && |data| > MAX_BYTES)
    {
      hide Heft, Reads;
      var before := Before(l);
      if before.Err? {
        return Err(before.problem);
      }
      if SameContent(before.value, Filled(after, data)) {
        PredictedAt(tree, effects, planned, l);
        SameContentSameEntry(tree, l, after, data);
        return Ok(false);
      }
      if (|data| > MAX_BYTES && after.kind == FileKind) || |effects| >= 4 * MAX_FILES {
        return Err(Limit);
      }
      Commit(l, after, data);
      return Ok(true);
    }

    method Commit(l: Location, after: Image, data: Bytes)
      requires Valid() && Draft(after) && l in observed && l !in planned && l.path != [] && ValidLocation(l)
      requires !SameContent(ImageAt(tree, l), Filled(after, data))
      requires (after.kind == FileKind ==> |data| <= MAX_BYTES) && |DataAt(tree, l)| <= MAX_BYTES
      modifies this`effects, this`planned
      ensures Valid()
      ensures effects == old(effects) + [EffectFor(tree, l, after, data)] && planned == old(planned)[l := Filled(after, data)]
      ensures Predicted() == Put(old(Predicted()), l, Wanted(after, data))
      ensures old(Plannable(tree, effects)) && Fitting(tree, old(Predicted()), l, after, data) ==>
                Plannable(tree, effects)
    {
      hide EffectFor, Filled, Draft, Accurate, Consistent, Plannable, Fitting, Wanted, ViewAt, ImageAt, DataAt, ValidLocation;
      AppendConsistent(tree, effects, planned, l, after, data);
      AppendViews(tree, effects, l, after, data);
      effects := effects + [EffectFor(tree, l, after, data)];
      planned := planned[l := Filled(after, data)];
    }

    /** `parents`: missing directories above `l` are created, top down. */
    method Parents(l: Location) returns (r: Result<()>)
      requires Ready() && l.path != [] && RootIsDir(tree, l)
      modifies this
      ensures Ready() && Extends(old(observed), observed) && old(effects) <= effects
      ensures r.Ok? ==> WithParents(old(Predicted()), Predicted(), l)
      ensures old(planned).Keys <= planned.Keys
      ensures forall k {:trigger k in planned} :: k in planned ==> k in old(planned) || Above(k, l)
      decreases |l.path|
    {
      hide Consistent, Accurate, Plannable, WithParents, Fitting, ViewAt, Shows, Above, IsDir, RootIsDir;
      ghost var v := Predicted();
      var p := Parent(l);
      if p.path == [] {
        RootStays(tree, effects, planned, l);
        OnlyRootAbove(v, l);
        return Ok(());
      }
      var current := Current(p);
      if current.Err? {
        return Err(current.problem);
      }
      ShownKind(current.value, At(v, p));
      if current.value.kind == DirKind {
        PlannableClosed(tree, effects);
        DirsAbove(v, l);
        return Ok(());
      }
      if current.value.kind != Absent {
        return Err(Conflict);
      }
      AboveParent(l);
      r := Parents(p);
      if r.Err? {
        return;
      }
      ghost var w := Predicted();
      ParentsReady(tree, effects, planned, v, w, p, PARENT_MODE);
      var changed := Change(p, NewDir(PARENT_MODE), []);
      if changed.Err? {
        return Err(changed.problem);
      }
      ParentsDone(v, w, Predicted(), l);
      return Ok(());
    }

    /** `write`: a file at `l`, keeping the mode of one that is there; without `replace` its bytes must match. */
    method Write(l: Location, data: Bytes, mode: nat, replace: bool) returns (r: Result<()>)
      requires Ready()
      modifies this
      ensures Ready() && Extends(old(observed), observed) && old(effects) <= effects && old(planned).Keys <= planned.Keys
      ensures forall k {:trigger k in planned} :: k in planned ==> k in old(planned) || k == l || Above(k, l)
      ensures r.Ok? ==>
                && l.path != [] && l !in old(planned)
                && Placed(old(Predicted()), Predicted(), l, FileEntry(ModeOr(At(old(Predicted()), l), mode), data))
      ensures r.Ok? && !replace ==> At(old(Predicted()), l) == None || At(old(Predicted()), l) == At(Predicted(), l)
    {
      hide Consistent, Accurate, Plannable, WithParents, Placed, Fitting, ViewAt, Shows, Above, IsDir, RootIsDir;
      if |data| > MAX_BYTES {
        return Err(Limit);
      }
      ghost var v := Predicted();
      var current := Current(l);
      if current.Err? {
        return Err(current.problem);
      }
      if current.value.kind != Absent && current.value.kind != FileKind {
        return Err(Conflict);
      }
      var m := mode;
      ShownKind(current.value, At(v, l));
      ShownFile(current.value, At(v, l), mode);
      RootShowsDir(tree, effects, planned, l);
      if current.value.kind == FileKind {
        m := current.value.mode;
        if !replace && current.value.digest != OfBytes(data) {
          return Err(Conflict);
        }
      }
      r := Parents(l);
      if r.Err? {
        return;
      }
      ghost var x := Predicted();
      var after := Image(FileKind, m, None, NoDigest, None, "");
      PlaceReady(tree, effects, planned, v, x, l, after, data);
      var changed := Change(l, after, data);
      if changed.Err? {
        return Err(changed.problem);
      }
      PlaceDone(v, x, Predicted(), l, FileEntry(m, data));
    }

    /** `link`: a relative link at `l`; `adopt` lets it take the place of a file. */
    method MakeLink(l: Location, target: string, adopt: bool) returns (r: Result<()>)
      requires Ready()
      modifies this
      ensures Ready() && Extends(old(observed), observed) && old(effects) <= effects && old(planned).Keys <= planned.Keys
      ensures forall k {:trigger k in planned} :: k in planned ==> k in old(planned) || k == l || Above(k, l)
      ensures r.Ok? ==> (At(old(Predicted()), l) == Some(LinkEntry(target)) && Predicted() == old(Predicted()))
                        || (l.path != [] && l !in old(planned) && Placed(old(Predicted()), Predicted(), l, LinkEntry(target)))
    {
      hide Consistent, Accurate, Plannable, WithParents, Placed, Fitting, ViewAt, Shows, Above, IsDir, RootIsDir;
      ghost var v := Predicted();
      var current := Current(l);
      if current.Err? {
        return Err(current.problem);
      }
      ShownKind(current.value, At(v, l));
      ShownLink(current.value, At(v, l));
      RootShowsDir(tree, effects, planned, l);
      if current.value.kind == LinkKind && current.value.link == target {
        return Ok(());
      }
      if current.value.kind != Absent && !(adopt && current.value.kind == FileKind) {
        return Err(Conflict);
      }
      if target != "" && target[0] == '/' {
        return Err(AbsoluteLink);
      }
      r := Parents(l);
      if r.Err? {
        return;
      }
      ghost var x := Predicted();
      var after := Image(LinkKind, LINK_MODE, None, NoDigest, None, target);
      PlaceReady(tree, effects, planned, v, x, l, after, []);
      var changed := Change(l, after, []);
      if changed.Err? {
        return Err(changed.problem);
      }
      PlaceDone(v, x, Predicted(), l, LinkEntry(target));
    }

    /** A directory at `l` with the given mode, unless one is there. */
    method MakeDir(l: Location, mode: nat) returns (r: Result<()>)
      requires Ready()
      modifies this
      ensures Ready() && old(effects) <= effects && old(planned).Keys <= planned.Keys
      ensures forall k {:trigger k in planned} :: k in planned ==> k in old(planned) || k == l || Above(k, l)
      ensures r.Ok? ==> (IsDir(At(old(Predicted()), l)) && Predicted() == old(Predicted()) && planned == old(planned))
                        || (l.path != [] && l !in old(planned) && Placed(old(Predicted()), Predicted(), l, DirEntry(mode)))
    {
      hide Consistent, Accurate, Plannable, WithParents, Placed, Fitting, ViewAt, Shows, Above, IsDir, RootIsDir, ModeOr;
      ghost var v := Predicted();
      var current := Current(l);
      if current.Err? {
        return Err(current.problem);
      }
      ShownKind(current.value, At(v, l));
      if current.value.kind == DirKind {
        return Ok(());
      }
      if current.value.kind != Absent {
        return Err(Conflict);
      }
      RootShowsDir(tree, effects, planned, l);
      NewDirMeans(mode);
      r := Parents(l);
      if r.Err? {
        return;
      }
      ghost var x := Predicted();
      ParentsReady(tree, effects, planned, v, x, l, mode);
      var changed := Change(l, NewDir(mode), []);
      if changed.Err? {
        return Err(changed.problem);
      }
      PlaceDone(v, x, Predicted(), l, DirEntry(mode));
      return Ok(());
    }

    /** The last effect planned is a retirement. */
    method MarkRetirement()
      requires Ready() && effects != []
      modifies this`effects
      ensures Ready() && Predicted() == old(Predicted())
      ensures |effects| == |old(effects)| && effects[..|effects| - 1] == old(effects)[..|effects| - 1] && effects[|effects| - 1].retirement
      ensures forall k :: 0 <= k <= |effects| ==>
                ViewAt(ViewOf(tree), effects, k) == ViewAt(ViewOf(tree), old(effects), k)
    {
      hide *;
      ReadyParts();
      Flagged(tree, effects, planned, |effects| - 1);
      effects := effects[|effects| - 1 := effects[|effects| - 1].(retirement := true)];
      ReadyAgain();
    }

    lemma ValidIs()
      requires Valid()
      ensures Observing() && Consistent(tree, effects, planned) && planned.Keys <= observed.Keys
    {
    }

    lemma TreeClosed()
      requires Observing()
      ensures Closed(tree)
    {
    }

    /** Observing more keeps a builder ready. */
    lemma StillReady(before: map<Location, Image>)
      requires Observing() && Extends(before, observed)
      requires Consistent(tree, effects, planned) && Plannable(tree, effects) && planned.Keys <= before.Keys
      ensures Ready()
    {
    }

    lemma ReadyParts()
      requires Ready()
      ensures Accurate(tree, roots, observed, guards) && Consistent(tree, effects, planned) && Plannable(tree, effects)
      ensures Valid() && Observing() && planned.Keys <= observed.Keys && Predicted() == ViewAt(ViewOf(tree), effects, |effects|)
    {
    }

    lemma ReadyAgain()
      requires Accurate(tree, roots, observed, guards) && Consistent(tree, effects, planned) && Plannable(tree, effects)
      requires planned.Keys <= observed.Keys
      ensures Ready() && Predicted() == ViewAt(ViewOf(tree), effects, |effects|)
    {
    }

    /** `remove`: its callers remove what is below a directory first. */
    method Remove(l: Location) returns (r: Result<()>)
      requires Ready() && (l in planned || NothingBelow(Predicted(), l))
      modifies this
      ensures Ready() && Extends(old(observed), observed) && old(effects) <= effects && old(planned).Keys <= planned.Keys
      ensures forall k {:trigger k in planned} :: k in planned ==> k in old(planned) || k == l
      ensures r.Ok? ==> Predicted() == Put(old(Predicted()), l, None)
      ensures r.Err? ==> effects == old(effects)
      ensures r.Ok? && l in old(planned) ==> effects == old(effects)
    {
      hide Consistent, Accurate, Plannable, Fitting, ViewAt, Shows;
      var current := Current(l);
      if current.Err? {
        return Err(current.problem);
      }
      ShownKind(current.value, At(Predicted(), l));
      if current.value.kind == Absent {
        return Ok(());
      }
      if l.path != [] && l !in planned {
        RemoveReady(tree, effects, planned, l);
      }
      var changed := Change(l, ABSENT, []);
      if changed.Err? {
        return Err(changed.problem);
      }
      return Ok(());
    }
  }

  /** Flags do not change what a plan does. */
  lemma Flagged(tree: Tree, es: seq<Effect>, planned: map<Location, Image>, n: nat)
    requires n < |es| && Consistent(tree, es, planned) && Plannable(tree, es)
    ensures var fs := es[n := es[n].(retirement := true)];
            && Consistent(tree, fs, planned) && Plannable(tree, fs)
            && forall k :: 0 <= k <= |es| ==> ViewAt(ViewOf(tree), fs, k) == ViewAt(ViewOf(tree), es, k)
  {
    var fs := es[n := es[n].(retirement := true)];
    forall k | 0 <= k <= |es|
      ensures ViewAt(ViewOf(tree), fs, k) == ViewAt(ViewOf(tree), es, k)
    {
      SameViews(ViewOf(tree), fs, es, k);
    }
    FlaggedConsistent(tree, es, planned, n);
  }

  lemma FlaggedConsistent(tree: Tree, es: seq<Effect>, planned: map<Location, Image>, n: nat)
    requires n < |es| && Consistent(tree, es, planned)
    ensures Consistent(tree, es[n := es[n].(retirement := true)], planned)
  {
    var fs := es[n := es[n].(retirement := true)];
    forall i | 0 <= i < |fs|
      ensures EffectFits(tree, fs[i]) && fs[i].loc == es[i].loc && fs[i].after == es[i].after
    {
      assert EffectFits(tree, es[i]);
    }
    hide EffectFits;
    forall l {:trigger l in planned} | l in planned
      ensures exists i :: 0 <= i < |fs| && fs[i].loc == l
    {
      var i :| 0 <= i < |es| && es[i].loc == l;
      assert fs[i].loc == l;
    }
  }

  /** A predicted entry that was planned is kept by everything planned later. */
  lemma PlannedKept(tree: Tree, es: seq<Effect>, before: map<Location, Image>, fs: seq<Effect>,
      after: map<Location, Image>, l: Location)
    requires Consistent(tree, es, before) && Consistent(tree, fs, after) && es <= fs && l in before
    ensures l in after && At(ViewAt(ViewOf(tree), fs, |fs|), l) == At(ViewAt(ViewOf(tree), es, |es|), l)
  {
    var i :| 0 <= i < |es| && es[i].loc == l;
    assert fs[i].loc in after;
    ViewTouched(ViewOf(tree), es, |es|, i);
    ViewTouched(ViewOf(tree), fs, |fs|, i);
  }

  function ModeOr(e: Option<Entry>, mode: nat): nat {
    if e.Some? && e.value.FileEntry? then e.value.mode else mode
  }

  /** `w` is `v` with the entry `e` at `l` and every missing directory above it created. */
  ghost predicate Placed(v: View, w: View, l: Location, e: Entry) {
    && At(w, l) == Some(e)
    && (forall a {:trigger Above(a, l)} :: Above(a, l) ==> IsDir(At(w, a)) && (a in v ==> w[a] == v[a]))
    && (forall k {:trigger At(w, k)} :: !Above(k, l) && k != l ==> At(w, k) == At(v, k))
  }

  lemma ShownFile(v: Image, e: Option<Entry>, mode: nat)
    requires Shows(v, e)
    ensures v.kind == FileKind ==> e.Some? && e.value.FileEntry? && ModeOr(e, mode) == v.mode
    ensures v.kind == FileKind ==>
              forall data: Bytes :: v.digest == OfBytes(data) ==> e == Some(FileEntry(v.mode, data))
    ensures v.kind == Absent ==> ModeOr(e, mode) == mode
  {
  }

  lemma ShownLink(v: Image, e: Option<Entry>)
    requires Shows(v, e)
    ensures v.kind == LinkKind ==> e == Some(LinkEntry(v.link))
  {
  }

  lemma RootShowsDir(tree: Tree, effects: seq<Effect>, planned: map<Location, Image>, l: Location)
    requires Consistent(tree, effects, planned) && RootIsDir(tree, l)
    ensures l.path == [] ==> IsDir(At(ViewAt(ViewOf(tree), effects, |effects|), l))
  {
    PredictedAt(tree, effects, planned, l);
  }

  lemma PlaceReady(tree: Tree, effects: seq<Effect>, planned: map<Location, Image>, v: View, x: View, l: Location,
      after: Image, data: Bytes)
    requires Consistent(tree, effects, planned) && Plannable(tree, effects) && x == ViewAt(ViewOf(tree), effects, |effects|)
    requires l.path != [] && WithParents(v, x, l) && !IsDir(At(v, l)) && (after.kind == FileKind || after.kind == LinkKind)
    ensures l !in planned ==> Fitting(tree, x, l, after, data)
  {
    hide *;
    PredictedAt(tree, effects, planned, l);
    PlannableClosed(tree, effects);
    ParentsMade(v, x, l);
    if l !in planned {
      LeafFits(tree, x, l, after, data);
    }
  }

  lemma LeafFits(tree: Tree, x: View, l: Location, after: Image, data: Bytes)
    requires l.path != [] && ClosedView(x) && At(x, l) == At(ViewOf(tree), l) && !IsDir(At(x, l)) && IsDir(At(x, Parent(l)))
    requires after.kind == FileKind || after.kind == LinkKind
    ensures Fitting(tree, x, l, after, data)
  {
    LeafBelow(x, l);
    hide ClosedView, NothingBelow;
  }

  lemma ParentsMade(v: View, x: View, l: Location)
    requires l.path != [] && WithParents(v, x, l)
    ensures IsDir(At(x, Parent(l))) && At(x, l) == At(v, l)
  {
    AboveParent(l);
  }

  lemma LeafBelow(v: View, l: Location)
    requires ClosedView(v) && !IsDir(At(v, l))
    ensures NothingBelow(v, l)
  {
    forall k | k in v && k.path != []
      ensures Parent(k) != l
    {
      assert HangsIn(v, k);
    }
  }

  lemma PlaceDone(v: View, x: View, w: View, l: Location, e: Entry)
    requires l.path != [] && WithParents(v, x, l) && w == Put(x, l, Some(e))
    ensures Placed(v, w, l, e)
  {
    forall a {:trigger Above(a, l)} | Above(a, l)
      ensures IsDir(At(w, a)) && (a in v ==> w[a] == v[a])
    {
    }
    forall k {:trigger At(w, k)} | !Above(k, l) && k != l
      ensures At(w, k) == At(v, k)
    {
      assert At(x, k) == At(v, k);
    }
  }

  lemma RemoveReady(tree: Tree, effects: seq<Effect>, planned: map<Location, Image>, l: Location)
    requires Consistent(tree, effects, planned) && l.path != [] && NothingBelow(ViewAt(ViewOf(tree), effects, |effects|), l)
    requires At(ViewAt(ViewOf(tree), effects, |effects|), l) != None
    ensures l !in planned ==> Fitting(tree, ViewAt(ViewOf(tree), effects, |effects|), l, ABSENT, [])
  {
    PredictedAt(tree, effects, planned, l);
  }

  const PARENT_MODE := 493

  function NewDir(mode: nat): Image {
    Image(DirKind, mode, None, NoDigest, None, "")
  }

  /** A proper ancestor. */
  predicate Above(a: Location, l: Location) {
    a.root == l.root && |a.path| < |l.path| && a.path == l.path[..|a.path|]
  }

  /** `w` is `v` with every missing directory above `l` created. */
  ghost predicate WithParents(v: View, w: View, l: Location) {
    && (forall a {:trigger Above(a, l)} :: Above(a, l) ==> IsDir(At(w, a)) && (a in v ==> w[a] == v[a]))
    && (forall k {:trigger At(w, k)} :: !Above(k, l) ==> At(w, k) == At(v, k))
  }

  lemma ShownKind(v: Image, e: Option<Entry>)
    requires Shows(v, e)
    ensures v.kind == DirKind <==> IsDir(e)
    ensures v.kind == Absent <==> e == None
  {
  }

  lemma PlannableClosed(tree: Tree, effects: seq<Effect>)
    requires Plannable(tree, effects)
    ensures ClosedView(ViewAt(ViewOf(tree), effects, |effects|))
  {
  }

  lemma AboveParent(l: Location)
    requires l.path != []
    ensures Above(Parent(l), l)
    ensures forall a {:trigger Above(a, Parent(l))} {:trigger Above(a, l)} :: Above(a, l) <==>
              a == Parent(l) || Above(a, Parent(l))
  {
  }

  lemma RootStays(tree: Tree, effects: seq<Effect>, planned: map<Location, Image>, l: Location)
    requires Consistent(tree, effects, planned) && RootIsDir(tree, l) && l.path != [] && Parent(l).path == []
    ensures IsDir(At(ViewAt(ViewOf(tree), effects, |effects|), Parent(l)))
  {
    PredictedAt(tree, effects, planned, Parent(l));
  }

  lemma OnlyRootAbove(v: View, l: Location)
    requires l.path != [] && Parent(l).path == [] && IsDir(At(v, Parent(l)))
    ensures WithParents(v, v, l)
  {
    forall a {:trigger Above(a, l)} | Above(a, l)
      ensures a == Parent(l)
    {
    }
  }

  lemma {:induction false} DirsAbove(v: View, l: Location)
    requires ClosedView(v) && l.path != [] && IsDir(At(v, Parent(l)))
    ensures WithParents(v, v, l)
  {
    forall a {:trigger Above(a, l)} | Above(a, l)
      ensures IsDir(At(v, a))
    {
      if a != Parent(l) {
        AncestorInClosed(v, Parent(l), |a.path|);
        assert Upto(Parent(l), |a.path|) == a;
      }
    }
  }

  /** Below the created parents `p` itself is still missing, so a directory can be put there. */
  lemma ParentsReady(tree: Tree, effects: seq<Effect>, planned: map<Location, Image>, v: View, w: View, p: Location,
      mode: nat)
    requires Consistent(tree, effects, planned) && w == ViewAt(ViewOf(tree), effects, |effects|)
    requires p.path != [] && WithParents(v, w, p) && At(v, p) == None
    ensures p !in planned ==> Fitting(tree, w, p, NewDir(mode), [])
  {
    hide *;
    PredictedAt(tree, effects, planned, p);
    ParentsMade(v, w, p);
    if p !in planned {
      DirFits(tree, w, p, mode);
    }
  }

  lemma DirFits(tree: Tree, w: View, p: Location, mode: nat)
    requires p.path != [] && IsDir(At(w, Parent(p))) && At(ViewOf(tree), p) == None
    ensures Fitting(tree, w, p, NewDir(mode), [])
  {
  }

  lemma NewDirMeans(mode: nat)
    ensures Draft(NewDir(mode)) && Wanted(NewDir(mode), []) == Some(DirEntry(mode)) && !IsDir(None)
  {
  }

  lemma ParentsDone(v: View, w: View, x: View, l: Location)
    requires l.path != [] && Parent(l).path != [] && WithParents(v, w, Parent(l)) && At(v, Parent(l)) == None
    requires x == Put(w, Parent(l), Some(DirEntry(PARENT_MODE)))
    ensures WithParents(v, x, l)
  {
    AboveParent(l);
    forall a {:trigger Above(a, l)} | Above(a, l)
      ensures IsDir(At(x, a)) && (a in v ==> x[a] == v[a])
    {
      assert a == Parent(l) || Above(a, Parent(l));
    }
    forall k {:trigger At(x, k)} | !Above(k, l)
      ensures At(x, k) == At(v, k)
    {
      assert At(w, k) == At(v, k);
    }
  }

  function EffectFor(tree: Tree, l: Location, after: Image, data: Bytes): Effect {
    var before := ImageAt(tree, l);
    Effect(l, if before.kind == FileKind then before.(blob := Some(DataAt(tree, l))) else before, Filled(after, data), None, false)
  }

  lemma ValidAbove(l: Location)
    requires l.path != [] && ValidLocation(l)
    ensures ValidLocation(Parent(l))
  {
  }

  lemma SameContentSameEntry(tree: Tree, l: Location, after: Image, data: Bytes)
    requires Draft(after) && SameContent(ImageAt(tree, l), Filled(after, data))
    ensures At(ViewOf(tree), l) == Wanted(after, data)
    ensures forall v: View :: At(v, l) == At(ViewOf(tree), l) ==> Put(v, l, Wanted(after, data)) == v
  {
  }

  lemma {:induction false} ViewPrefix(v: View, es: seq<Effect>, more: seq<Effect>, k: nat)
    requires k <= |es|
    ensures ViewAt(v, es + more, k) == ViewAt(v, es, k)
  {
    if k > 0 {
      ViewPrefix(v, es, more, k - 1);
    }
  }

  ghost predicate Fitting(tree: Tree, v: View, l: Location, after: Image, data: Bytes)
    requires l.path != []
  {
    Supported(KindAt(tree, l), after.kind) && CanPut(v, l, Wanted(after, data))
  }

  lemma AppendConsistent(tree: Tree, es: seq<Effect>, planned: map<Location, Image>, l: Location, after: Image,
      data: Bytes)
    requires Consistent(tree, es, planned) && l !in planned && l.path != [] && ValidLocation(l) && Draft(after)
    requires !SameContent(ImageAt(tree, l), Filled(after, data))
    requires after.kind == FileKind ==> |data| <= MAX_BYTES
    requires |DataAt(tree, l)| <= MAX_BYTES
    ensures Consistent(tree, es + [EffectFor(tree, l, after, data)], planned[l := Filled(after, data)])
  {
    var e := EffectFor(tree, l, after, data);
    assert EffectFits(tree, e) && e.loc == l && e.after == Filled(after, data);
    hide EffectFits, EffectFor, Filled, Draft;
    var all := es + [e];
    assert all[|es|] == e;
    forall m {:trigger m in planned[l := e.after]} | m in planned[l := e.after]
      ensures exists i :: 0 <= i < |all| && all[i].loc == m
    {
      if m == l {
        assert all[|es|].loc == m;
      } else {
        var i :| 0 <= i < |es| && es[i].loc == m;
        assert all[i].loc == m;
      }
    }
  }

  lemma AppendView(v: View, es: seq<Effect>, e: Effect)
    ensures ViewAt(v, es + [e], |es| + 1) == Put(ViewAt(v, es, |es|), e.loc, Goal(e))
  {
    ViewPrefix(v, es, [e], |es|);
    assert (es + [e])[|es|] == e;
  }

  lemma AppendPlannable(tree: Tree, es: seq<Effect>, e: Effect)
    requires Plannable(tree, es) && e.loc.path != []
    requires Supported(e.before.kind, e.after.kind) && CanPut(ViewAt(ViewOf(tree), es, |es|), e.loc, Goal(e))
    ensures Plannable(tree, es + [e])
  {
    hide CanPut, Goal, ViewOf, HangsIn;
    var v, all := ViewOf(tree), es + [e];
    assert ClosedView(ViewAt(v, es, |es|));
    PutClosed(ViewAt(v, es, |es|), e.loc, Goal(e));
    AppendView(v, es, e);
    forall k | 0 <= k <= |all|
      ensures ClosedView(ViewAt(v, all, k))
    {
      if k <= |es| {
        ViewPrefix(v, es, [e], k);
      }
    }
  }

  lemma AppendViews(tree: Tree, es: seq<Effect>, l: Location, after: Image, data: Bytes)
    requires l.path != [] && Draft(after)
    ensures ViewAt(ViewOf(tree), es + [EffectFor(tree, l, after, data)], |es| + 1) ==
            Put(ViewAt(ViewOf(tree), es, |es|), l, Wanted(after, data))
    ensures Plannable(tree, es) && Fitting(tree, ViewAt(ViewOf(tree), es, |es|), l, after, data) ==>
              Plannable(tree, es + [EffectFor(tree, l, after, data)])
  {
    var e := EffectFor(tree, l, after, data);
    assert e.loc == l && Goal(e) == Wanted(after, data) && e.before.kind == KindAt(tree, l) && e.after.kind == after.kind;
    hide EffectFor, Draft, Goal, KindAt, Wanted, ViewAt, Plannable;
    AppendView(ViewOf(tree), es, e);
    if Plannable(tree, es) && Fitting(tree, ViewAt(ViewOf(tree), es, |es|), l, after, data) {
      AppendPlannable(tree, es, e);
    }
  }

  /** The image describes the entry. */
  predicate Shows(v: Image, e: Option<Entry>) {
    match e
    case None => v.kind == Absent
    case Some(FileEntry(mode, data)) => v.kind == FileKind && v.mode == mode && v.digest == OfBytes(data)
    case Some(DirEntry(mode)) => v.kind == DirKind && v.mode == mode
    case Some(LinkEntry(target)) => v.kind == LinkKind && v.link == target
  }

  lemma PresentImage(tree: Tree, l: Location)
    requires Closed(tree) && Snapshot(tree, l).Some?
    ensures Snapshot(tree, l).value == ImageAt(tree, l) && Shows(ImageAt(tree, l), At(ViewOf(tree), l))
  {
    SnapshotClosed(tree, l);
  }

  lemma PlannedImage(tree: Tree, effects: seq<Effect>, planned: map<Location, Image>, l: Location)
    requires Consistent(tree, effects, planned) && l in planned
    ensures Shows(planned[l], Wanted(planned[l], Payload(planned[l]))) && ValidLocation(l)
  {
    var i :| 0 <= i < |effects| && effects[i].loc == l;
    assert EffectFits(tree, effects[i]);
  }

  predicate RootIsDir(t: Tree, l: Location) {
    Location(l.root, []) in t && t[Location(l.root, [])].Dir?
  }

  lemma {:induction false} FirstGuardGrows(gs: seq<Observation>, g: Observation)
    ensures forall l :: FirstGuard(gs + [g], l) ==
                        if FirstGuard(gs, l).Some? then FirstGuard(gs, l) else if l == g.loc then Some(g.image) else None
  {
    if gs != [] {
      FirstGuardGrows(gs[1..], g);
      assert (gs + [g])[1..] == gs[1..] + [g];
    }
  }

  lemma {:induction false} FirstGuardKnown(gs: seq<Observation>, l: Location)
    ensures FirstGuard(gs, l).Some? ==> exists k :: 0 <= k < |gs| && gs[k].loc == l
  {
    if gs != [] && gs[0].loc != l {
      FirstGuardKnown(gs[1..], l);
      if k :| 0 <= k < |gs[1..]| && gs[1..][k].loc == l {
        assert gs[k + 1].loc == l;
      }
    }
  }

  /** The observations of a plan cover all its effects. */
  lemma GuardsCover(tree: Tree, r: Record, observed: map<Location, Image>, planned: map<Location, Image>)
    requires Accurate(tree, r.roots, observed, r.guards) && Consistent(tree, r.effects, planned) && planned.Keys <= observed.Keys
    ensures GuardsOk(tree, r)
  {
    forall i, n {:trigger Upto(r.effects[i].loc, n)} | 0 <= i < |r.effects| && 0 < n < |r.effects[i].loc.path|
      ensures FirstGuard(r.guards, Upto(r.effects[i].loc, n)).Some?
    {
      assert r.effects[i].loc in planned;
      ObservedAbove(tree, r.roots, observed, r.guards, r.effects[i].loc, n);
    }
  }

  /** Consistent effects are a good plan exactly when each step can be carried out after the ones before it. */
  lemma PlannableIsOk(tree: Tree, es: seq<Effect>, planned: map<Location, Image>)
    requires Consistent(tree, es, planned)
    ensures Plannable(tree, es) <==> PlanOk(tree, es)
    ensures (forall i :: 0 <= i < |es| ==> Supported(es[i].before.kind, es[i].after.kind)) <==> EachGood(tree, es)
    ensures forall i :: 0 <= i < |es| ==> Stored(es[i].before).Some? && Stored(es[i].after).Some?
  {
    forall i | 0 <= i < |es|
      ensures EffectOk(tree, es[i]) <==> Supported(es[i].before.kind, es[i].after.kind)
      ensures Stored(es[i].before).Some? && Stored(es[i].after).Some?
    {
      assert EffectFits(tree, es[i]);
    }
    hide EffectOk, EffectFits, ClosedView;
    if EachGood(tree, es) {
      forall i | 0 <= i < |es|
        ensures Supported(es[i].before.kind, es[i].after.kind)
      {
        assert EffectOk(tree, es[i]);
      }
    }
  }

  /** What a client leaves behind is a built plan. */
  lemma ReadyIsBuilt(tree: Tree, r: Record, observed: map<Location, Image>, planned: map<Location, Image>)
    requires Accurate(tree, r.roots, observed, r.guards) && Consistent(tree, r.effects, planned) && planned.Keys <= observed.Keys
    requires Plannable(tree, r.effects)
    ensures Built(tree, r)
  {
    GuardsCover(tree, r, observed, planned);
    PlannableIsOk(tree, r.effects, planned);
    hide Consistent, Plannable, GuardsOk, PlanOk;
  }
}
