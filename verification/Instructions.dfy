/**
 Sharing one instruction file (internal/agentinterop/instructions.go:56-140): copy, move, link or import.
 */
module Instructions {
  import opened Options
  import opened FileTree
  import opened Effects
  import opened Transaction
  import opened Execution
  import opened Planner
  import opened Moves

  const FILE_MODE: nat := 420

  datatype Style = Symlink | Import | Unknown

  /** `source` is `from` with a link resolved; `text` is the path from the target's directory to it. */
  datatype Request = Request(mode: Mode, style: Style, adopt: bool, source: Location, from: Location, to: Location,
                             text: string, header: Bytes, importable: bool, sameDirectory: bool, consumers: seq<Location>)

  /** The text checks, as functions of what they look at. */
  datatype Reader = Reader(
    readable: Bytes -> bool,
    secret: (Location, Bytes) -> bool,
    relative: Bytes -> bool,
    imports: Bytes -> bool,
    consumes: Location -> bool)

  function SourceAt(t: Tree, q: Request): Location {
    if q.from in t && t[q.from].Link? then q.source else q.from
  }

  /** The bytes that were at `source` are there, or in a file at `target`. */
  predicate BytesKept(v0: View, v: View, source: Location, target: Location, data: Bytes) {
    At(v, source) == At(v0, source) || (At(v, target).Some? && At(v, target).value.FileEntry? && At(v, target).value.data == data)
  }

  ghost predicate AlwaysKept(t: Tree, effects: seq<Effect>, source: Location, target: Location, data: Bytes) {
    forall k :: 0 <= k <= |effects| ==> BytesKept(ViewOf(t), ViewAt(ViewOf(t), effects, k), source, target, data)
  }

  predicate HoldsBytes(v: View, l: Location, data: Bytes) {
    At(v, l).Some? && At(v, l).value.FileEntry? && At(v, l).value.data == data
  }

  lemma {:induction false} ViewStays(v: View, es: seq<Effect>, m: nat, k: nat, l: Location)
    requires m <= k <= |es| && forall j :: m <= j < k ==> es[j].loc != l
    ensures At(ViewAt(v, es, k), l) == At(ViewAt(v, es, m), l)
  {
    if m < k {
      ViewStays(v, es, m, k - 1, l);
    }
  }

  /** The first `m` effects leave the source alone, the others leave the target alone. */
  lemma WrittenBeforeRemoved(t: Tree, es: seq<Effect>, m: nat, source: Location, target: Location, data: Bytes)
    requires m <= |es| && HoldsBytes(ViewAt(ViewOf(t), es, m), target, data)
    requires forall j :: 0 <= j < m ==> es[j].loc != source
    requires forall j :: m <= j < |es| ==> es[j].loc != target
    ensures AlwaysKept(t, es, source, target, data)
  {
    forall k | 0 <= k <= |es|
      ensures BytesKept(ViewOf(t), ViewAt(ViewOf(t), es, k), source, target, data)
    {
      if k <= m {
        ViewUntouched(ViewOf(t), es, k, source);
      } else {
        ViewStays(ViewOf(t), es, m, k, target);
      }
    }
  }

  /** `checkInstructionConsumers`: no other native link may lead to the source. */
  method CheckConsumers(b: Builder, source: Location, from: Location, consumers: seq<Location>, reader: Reader)
    returns (r: Result<()>)
    requires b.Ready()
    modifies b`roots, b`observed, b`guards, b`total
    ensures b.Ready() && Extends(old(b.observed), b.observed)
    ensures r.Ok? ==>
              forall c <- consumers :: c in b.tree && b.tree[c].Link? && reader.consumes(c) ==> c == source || c == from
  {
    hide *;
    var i := 0;
    SameExtends(b.observed);
    while i < |consumers|
      invariant 0 <= i <= |consumers| && b.Ready() && Extends(old(b.observed), b.observed)
      invariant forall c <- consumers[..i] :: c in b.tree && b.tree[c].Link? && reader.consumes(c) ==>
                c == source || c == from
    {
      var c := consumers[i];
      i := i + 1;
      assert consumers[..i] == consumers[..i - 1] + [c];
      if c == source || c == from {
        continue;
      }
      b.ReadyParts();
      ghost var observed := b.observed;
      var img := b.Read(c);
      b.StillReady(observed);
      ChainExtends(old(b.observed), observed, b.observed);
      if img.Err? {
        return Err(img.problem);
      }
      b.TreeClosed();
      if img.value.kind != LinkKind {
        LinkUnseen(b.tree, c, img.value);
        continue;
      }
      if reader.consumes(c) {
        return Err(Conflict);
      }
    }
    assert consumers[..i] == consumers;
    return Ok(());
  }

  lemma SameExtends(a: map<Location, Image>)
    ensures Extends(a, a)
  {
  }

  lemma ChainExtends(a: map<Location, Image>, b: map<Location, Image>, c: map<Location, Image>)
    requires Extends(a, b) && Extends(b, c)
    ensures Extends(a, c)
  {
  }

  /** What a request may ask for before anything is read: a link does not resolve to itself. */
  predicate Resolvable(t: Tree, q: Request) {
    && q.mode in {Mode.Copy, Mode.Move, Mode.Mirror}
    && (q.from in t && t[q.from].Link? ==> q.source != q.from)
  }

  /** What is planned for each mode. */
  ghost predicate Shared(t: Tree, v: View, effects: seq<Effect>, q: Request) {
    var source, old_, data := SourceAt(t, q), At(ViewOf(t), q.to), DataAt(t, SourceAt(t, q));
    match q.mode
    case Mirror =>
      if q.style == Symlink
      then At(v, q.to) == Some(LinkEntry(q.text)) && (old_.Some? && old_.value.FileEntry? ==> q.adopt && old_.value.data == data)
      else HoldsBytes(v, q.to, DataAt(t, q.to)) || HoldsBytes(v, q.to, q.header + DataAt(t, q.to))
    case Copy => HoldsBytes(v, q.to, data) && (old_ == None || old_ == At(v, q.to)) && At(v, source) == At(ViewOf(t), source)
    case _ =>
      && HoldsBytes(v, q.to, data) && (old_ == None || old_ == At(v, q.to)) && q.from !in v
      && AlwaysKept(t, effects, source, q.to, data)
  }

  /** `planInstructions`. */
  method PlanInstructions(b: Builder, q: Request, reader: Reader) returns (r: Result<()>)
    requires b.Ready() && b.effects == [] && b.planned == map[] && Resolvable(b.tree, q)
    modifies b
    ensures b.Ready()
    ensures r.Ok? && SourceAt(b.tree, q) == q.to ==> b.effects == []
    ensures r.Ok? && SourceAt(b.tree, q) != q.to ==>
              && Shared(b.tree, b.Predicted(), b.effects, q)
              && reader.readable(DataAt(b.tree, SourceAt(b.tree, q)))
                    && !reader.secret(SourceAt(b.tree, q), DataAt(b.tree, SourceAt(b.tree, q)))
  {
    hide *;
    b.ReadyParts();
    ghost var observed := b.observed;
    var img := b.Read(q.from);
    b.StillReady(observed);
    if img.Err? {
      return Err(img.problem);
    }
    b.TreeClosed();
    var source := if img.value.kind == LinkKind then q.source else q.from;
    SourceIs(b.tree, q, img.value);
    if source == q.to {
      return Ok(());
    }
    observed := b.observed;
    img := b.Read(source);
    b.StillReady(observed);
    if img.Err? {
      return Err(img.problem);
    }
    var data := DataAt(b.tree, source);
    KindSeen(b.tree, source, img.value);
    if img.value.kind != FileKind || !reader.readable(data) {
      return Err(Corrupt);
    }
    if reader.secret(source, data) {
      return Err(Corrupt);
    }
    observed := b.observed;
    var there := b.Read(q.to);
    b.StillReady(observed);
    if there.Err? {
      return Err(there.problem);
    }
    KindSeen(b.tree, q.to, there.value);
    if there.value.kind == DirKind {
      return Err(Conflict);
    }
    if q.mode == Mode.Mirror {
      r := PlanMirror(b, q, reader, source, data, there.value.kind);
      return;
    }
    if there.value.kind == LinkKind {
      return Err(Conflict);
    }
    r := PlanCopy(b, q, reader, source, data);
  }

  lemma SourceIs(t: Tree, q: Request, img: Image)
    requires Closed(t) && Snapshot(t, q.from) == Some(img)
    ensures SourceAt(t, q) == if img.kind == LinkKind then q.source else q.from
    ensures Resolvable(t, q) ==> q.mode in {Mode.Copy, Mode.Move, Mode.Mirror}
  {
    SnapshotClosed(t, q.from);
  }

  lemma KindSeen(t: Tree, l: Location, img: Image)
    requires Closed(t) && Snapshot(t, l) == Some(img)
    ensures KindAt(t, l) == img.kind
  {
    SnapshotClosed(t, l);
  }

  method PlanMirror(b: Builder, q: Request, reader: Reader, source: Location, data: Bytes, there: Kind)
    returns (r: Result<()>)
    requires b.Ready() && b.effects == [] && b.planned == map[] && q.mode == Mode.Mirror
    requires source == SourceAt(b.tree, q) && data == DataAt(b.tree, source) && there == KindAt(b.tree, q.to)
    modifies b
    ensures b.Ready()
    ensures r.Ok? ==> Shared(b.tree, b.Predicted(), b.effects, q)
  {
    hide *;
    ghost var v := b.Predicted();
    b.ReadyParts();
    Unplanned(b.tree, b.effects);
    var current := DataAt(b.tree, q.to);
    if q.style == Symlink {
      if there == FileKind && (data != current || !q.adopt) {
        return Err(Conflict);
      }
      if !q.sameDirectory && reader.relative(data) {
        return Err(Conflict);
      }
      r := b.MakeLink(q.to, q.text, q.adopt);
      if r.Ok? {
        LinkShared(b.tree, v, b.Predicted(), b.effects, q, source, data);
      }
      return;
    }
    if q.style != Import || !q.importable || there == LinkKind {
      return Err(Conflict);
    }
    if there == FileKind && reader.imports(current) {
      ImportThere(b.tree, v, b.effects, q);
      return Ok(());
    }
    r := b.Write(q.to, q.header + current, FILE_MODE, true);
    if r.Ok? {
      ImportShared(b.tree, v, b.Predicted(), b.effects, q);
    }
  }

  lemma Unplanned(t: Tree, effects: seq<Effect>)
    ensures effects == [] ==> ViewAt(ViewOf(t), effects, |effects|) == ViewOf(t)
  {
  }

  lemma LinkShared(t: Tree, v: View, w: View, effects: seq<Effect>, q: Request, source: Location, data: Bytes)
    requires v == ViewOf(t) && q.mode == Mode.Mirror && q.style == Symlink && source == SourceAt(t, q) && data == DataAt(t, source)
    requires KindAt(t, q.to) == FileKind ==> data == DataAt(t, q.to) && q.adopt
    requires (At(v, q.to) == Some(LinkEntry(q.text)) && w == v) || (q.to.path != [] && Placed(v, w, q.to, LinkEntry(q.text)))
    ensures Shared(t, w, effects, q)
  {
  }

  lemma ImportThere(t: Tree, v: View, effects: seq<Effect>, q: Request)
    requires v == ViewOf(t) && q.mode == Mode.Mirror && q.style == Import && KindAt(t, q.to) == FileKind
    ensures Shared(t, v, effects, q)
  {
  }

  lemma ImportShared(t: Tree, v: View, w: View, effects: seq<Effect>, q: Request)
    requires q.mode == Mode.Mirror && q.style == Import
    requires Placed(v, w, q.to, FileEntry(ModeOr(At(v, q.to), FILE_MODE), q.header + DataAt(t, q.to)))
    ensures Shared(t, w, effects, q)
  {
  }

  method PlanCopy(b: Builder, q: Request, reader: Reader, source: Location, data: Bytes) returns (r: Result<()>)
    requires b.Ready() && b.effects == [] && b.planned == map[] && q.mode in {Mode.Copy, Mode.Move} && Resolvable(b.tree, q)
    requires source == SourceAt(b.tree, q) && source != q.to && KindAt(b.tree, source) == FileKind && data == DataAt(b.tree, source)
    requires KindAt(b.tree, q.to) != LinkKind
    modifies b
    ensures b.Ready()
    ensures r.Ok? ==> Shared(b.tree, b.Predicted(), b.effects, q)
  {
    hide *;
    ghost var v := b.Predicted();
    b.ReadyParts();
    Unplanned(b.tree, b.effects);
    ghost var planned := b.planned;
    r := b.Write(q.to, data, FILE_MODE, false);
    if r.Err? {
      return;
    }
    b.ReadyParts();
    ghost var w, effects, planned1 := b.Predicted(), b.effects, b.planned;
    Written(b.tree, v, w, b.effects, planned, planned1, q, source, data);
    if q.mode == Mode.Move {
      r := CheckConsumers(b, source, q.from, q.consumers, reader);
      if r.Err? {
        return;
      }
      b.ReadyParts();
      FromIsLeaf(b.tree, q, source);
      LeafHere(b.tree, b.effects, b.planned, q.from);
      r := b.Remove(q.from);
      if r.Err? {
        return;
      }
      b.ReadyParts();
      MoveShared(b.tree, w, b.Predicted(), effects, planned1, b.effects, b.planned, q, source, data);
    } else {
      CopyShared(b.tree, w, planned1, b.effects, q, source, data);
    }
    return Ok(());
  }

  /** After the write: the bytes are at the target, the source is as it was, and it is not planned. */
  ghost predicate Copied(t: Tree, w: View, planned: map<Location, Image>, q: Request, source: Location, data: Bytes) {
    && HoldsBytes(w, q.to, data) && (At(ViewOf(t), q.to) == None || At(ViewOf(t), q.to) == At(w, q.to))
    && At(w, source) == At(ViewOf(t), source) && source !in planned
  }

  lemma Written(t: Tree, v: View, w: View, effects: seq<Effect>, before: map<Location, Image>,
      planned: map<Location, Image>, q: Request, source: Location, data: Bytes)
    requires v == ViewOf(t) && before == map[] && source != q.to && KindAt(t, source) == FileKind && KindAt(t, q.to) != LinkKind
    requires Placed(v, w, q.to, FileEntry(ModeOr(At(v, q.to), FILE_MODE), data)) && (At(v, q.to) == None || At(v, q.to) == At(w, q.to))
    requires forall k {:trigger k in planned} :: k in planned ==> k in before || k == q.to || Above(k, q.to)
    ensures Copied(t, w, planned, q, source, data)
  {
    assert !Above(source, q.to);
    assert At(w, source) == At(v, source);
  }

  lemma FromIsLeaf(t: Tree, q: Request, source: Location)
    requires source == SourceAt(t, q) && KindAt(t, source) == FileKind && KindAt(t, q.to) != LinkKind && source != q.to
    ensures q.from in t && !t[q.from].Dir? && q.from != q.to
  {
  }

  lemma CopyShared(t: Tree, w: View, planned: map<Location, Image>, effects: seq<Effect>, q: Request, source: Location,
      data: Bytes)
    requires Copied(t, w, planned, q, source, data) && q.mode == Mode.Copy && source == SourceAt(t, q) && data == DataAt(t, source)
    ensures Shared(t, w, effects, q)
  {
  }

  lemma MoveShared(t: Tree, w: View, x: View, effects: seq<Effect>, planned: map<Location, Image>, more: seq<Effect>,
      after: map<Location, Image>, q: Request, source: Location, data: Bytes)
    requires Consistent(t, effects, planned) && Consistent(t, more, after) && effects <= more
    requires w == ViewAt(ViewOf(t), effects, |effects|) && x == ViewAt(ViewOf(t), more, |more|) && x == Put(w, q.from, None)
    requires Copied(t, w, planned, q, source, data) && q.from != q.to
    requires forall k {:trigger k in after} :: k in after ==> k in planned || k == q.from
    requires q.mode == Mode.Move && source == SourceAt(t, q) && data == DataAt(t, source)
    ensures Shared(t, x, more, q)
  {
    hide *;
    PrefixViews(t, effects, more);
    OnlyFromAfter(t, effects, planned, more, after, q.from);
    CopiedParts(t, w, planned, q, source, data);
    SourceBefore(t, effects, planned, more, source);
    WrittenBeforeRemoved(t, more, |effects|, source, q.to, data);
    MoveFolds(t, w, x, more, q, source, data);
  }

  lemma CopiedParts(t: Tree, w: View, planned: map<Location, Image>, q: Request, source: Location, data: Bytes)
    requires Copied(t, w, planned, q, source, data)
    ensures HoldsBytes(w, q.to, data) && (At(ViewOf(t), q.to) == None || At(ViewOf(t), q.to) == At(w, q.to)) && source !in planned
  {
  }

  lemma MoveFolds(t: Tree, w: View, x: View, effects: seq<Effect>, q: Request, source: Location, data: Bytes)
    requires HoldsBytes(w, q.to, data) && (At(ViewOf(t), q.to) == None || At(ViewOf(t), q.to) == At(w, q.to))
    requires x == Put(w, q.from, None) && q.from != q.to && AlwaysKept(t, effects, source, q.to, data)
    requires q.mode == Mode.Move && source == SourceAt(t, q) && data == DataAt(t, source)
    ensures Shared(t, x, effects, q)
  {
    hide AlwaysKept;
  }

  lemma OnlyFromAfter(t: Tree, es: seq<Effect>, planned: map<Location, Image>, fs: seq<Effect>,
      after: map<Location, Image>, l: Location)
    requires Consistent(t, es, planned) && Consistent(t, fs, after) && es <= fs
    requires forall k {:trigger k in after} :: k in after ==> k in planned || k == l
    ensures forall j :: |es| <= j < |fs| ==> fs[j].loc == l
  {
    forall j | |es| <= j < |fs|
      ensures fs[j].loc == l
    {
      assert fs[j].loc in after;
      assert forall i :: 0 <= i < |es| ==> fs[i] == es[i] && fs[i].loc != fs[j].loc;
    }
  }

  lemma SourceBefore(t: Tree, es: seq<Effect>, planned: map<Location, Image>, fs: seq<Effect>, source: Location)
    requires Consistent(t, es, planned) && es <= fs && source !in planned
    ensures forall j :: 0 <= j < |es| ==> fs[j].loc != source
  {
    assert forall j :: 0 <= j < |es| ==> fs[j] == es[j] && es[j].loc in planned;
  }
}
