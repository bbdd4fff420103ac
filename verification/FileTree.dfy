/** Shared option type. */
module Options {
  datatype Option<+T> = None | Some(value: T)
}

/**
 The file-tree semantics of internal/agentinterop/fs.go: locations below a held
 root, what a snapshot of a location reports, and the one-entry step `Publish`.

 Digests are injective, so a digest is represented by what was digested.
 An identity is a number taken from a counter that every publication advances.
 */
module FileTree {
  import opened Options

  type Bytes = seq<bv8>

  const MAX_BYTES := 8388608
  const MAX_FILES := 256
  const LINK_MODE := 511

  /** `path` holds the components below `root`; the root itself is the empty path. */
  datatype Location = Location(root: string, path: seq<string>)

  function Parent(l: Location): Location
    requires l.path != []
  {
    Location(l.root, l.path[..|l.path| - 1])
  }

  function Base(l: Location): string
    requires l.path != []
  {
    l.path[|l.path| - 1]
  }

  function Child(l: Location, name: string): Location {
    Location(l.root, l.path + [name])
  }

  lemma ChildOfParent(l: Location, name: string)
    ensures Parent(Child(l, name)) == l && Base(Child(l, name)) == name
    ensures l.path != [] ==> Child(Parent(l), Base(l)) == l
  {
    assert (l.path + [name])[..|l.path|] == l.path;
    if l.path != [] {
      assert l.path[..|l.path| - 1] + [l.path[|l.path| - 1]] == l.path;
    }
  }

  const MAX_DEPTH := 64
  const MAX_COMPONENT := 255

  /** `validLocation`, without the reserved-name and Unicode tables. */
  predicate ValidLocation(l: Location) {
    && l.root != "" && l.root[0] == '/'
    && |l.path| <= MAX_DEPTH
    && forall i :: 0 <= i < |l.path| ==> ValidComponent(l.path[i])
  }

  predicate ValidComponent(c: string) {
    && 0 < |c| <= MAX_COMPONENT
    && c != "." && c != ".."
    && forall i :: 0 <= i < |c| ==> c[i] !in "/\\<>:\"|?*"
  }

  datatype Node =
    | File(id: nat, mode: nat, data: Bytes)
    | Dir(id: nat, mode: nat)
    | Link(id: nat, target: string)

  type Tree = map<Location, Node>

  datatype Disk = Disk(tree: Tree, next: nat)

  /** Every entry below a root sits in a directory. */
  ghost predicate Closed(t: Tree) {
    forall l {:trigger Hangs(t, l)} :: l in t ==> Hangs(t, l)
  }

  predicate Hangs(t: Tree, l: Location) {
    l.path != [] ==> Parent(l) in t && t[Parent(l)].Dir?
  }

  function Names(t: Tree, l: Location): set<string> {
    set k | k in t && k.path != [] && Parent(k) == l :: Base(k)
  }

  /** A tree with identities forgotten: what an undo has to restore. */
  datatype Entry =
    | FileEntry(mode: nat, data: Bytes)
    | DirEntry(mode: nat)
    | LinkEntry(target: string)

  type View = map<Location, Entry>

  function Erase(n: Node): Entry {
    match n
    case File(_, mode, data) => FileEntry(mode, data)
    case Dir(_, mode) => DirEntry(mode)
    case Link(_, target) => LinkEntry(target)
  }

  function ViewOf(t: Tree): View {
    map l | l in t :: Erase(t[l])
  }

  ghost predicate ClosedView(v: View) {
    forall l {:trigger HangsIn(v, l)} :: l in v ==> HangsIn(v, l)
  }

  predicate HangsIn(v: View, l: Location) {
    l.path != [] ==> Parent(l) in v && v[Parent(l)].DirEntry?
  }

  function At(v: View, l: Location): Option<Entry> {
    if l in v then Some(v[l]) else None
  }

  function Put(v: View, l: Location, e: Option<Entry>): View {
    if e.None? then v - {l} else v[l := e.value]
  }

  /** The entry `e` can be put at `l`: a directory is above it and, unless it is one, nothing is below it. */
  ghost predicate CanPut(v: View, l: Location, e: Option<Entry>)
    requires l.path != []
  {
    && (e.Some? ==> Parent(l) in v && v[Parent(l)].DirEntry?)
    && ((e.Some? && e.value.DirEntry?) || NothingBelow(v, l))
  }

  ghost predicate NothingBelow(v: View, l: Location) {
    forall k {:trigger HangsIn(v, k)} :: k in v && k.path != [] ==> Parent(k) != l
  }

  /** Replacing one entry keeps a view closed when the entry has a directory above it
      and, unless it becomes a directory, nothing below it. */
  lemma PutClosed(v: View, l: Location, e: Option<Entry>)
    requires ClosedView(v) && l.path != []
    requires CanPut(v, l, e)
    ensures ClosedView(Put(v, l, e))
  {
    var w := Put(v, l, e);
    assert Parent(l) != l by { assert |Parent(l).path| < |l.path|; }
    forall k {:trigger HangsIn(w, k)} | k in w
      ensures HangsIn(w, k)
    {
      assert k in v ==> HangsIn(v, k);
    }
  }

  datatype Kind = Absent | FileKind | DirKind | LinkKind

  datatype Digest = NoDigest | OfBytes(data: Bytes) | OfNames(names: set<string>) | OfLink(target: string)

  /** The `image` record; `blob` stands for the immutable recovery object by its bytes. */
  datatype Image = Image(kind: Kind, mode: nat, identity: Option<nat>, digest: Digest, blob: Option<Bytes>, link: string)

  const ABSENT := Image(Absent, 0, None, NoDigest, None, "")

  function ImageOf(n: Node, names: set<string>): Image {
    match n
    case File(id, mode, data) => Image(FileKind, mode, Some(id), OfBytes(data), None, "")
    case Dir(id, mode) => Image(DirKind, mode, Some(id), OfNames(names), None, "")
    case Link(id, target) => Image(LinkKind, LINK_MODE, Some(id), OfLink(target), None, target)
  }

  /** What is at `l`, with no reading limit. */
  function ImageAt(t: Tree, l: Location): Image {
    if l in t then ImageOf(t[l], Names(t, l)) else ABSENT
  }

  predicate SameImage(a: Image, b: Image) {
    a.kind == b.kind && a.identity == b.identity && a.mode == b.mode && a.digest == b.digest && a.link == b.link
  }

  predicate SameContent(a: Image, b: Image) {
    a.kind == b.kind && a.mode == b.mode && a.digest == b.digest && a.link == b.link
  }

  datatype Probe = Missing | Blocked | Found(node: Node)

  /** Opening each directory on the way down: a missing one means "absent",
      one that is a file or a link is an error. */
  function Walk(t: Tree, l: Location): Probe
    decreases |l.path|
  {
    if l.path == [] then (if l in t then Found(t[l]) else Missing)
    else
      match Walk(t, Parent(l))
      case Found(Dir(_, _)) => if l in t then Found(t[l]) else Missing
      case Found(_) => Blocked
      case other => other
  }

  predicate Oversized(t: Tree, l: Location)
    requires l in t
  {
    match t[l]
    case File(_, _, data) => |data| > MAX_BYTES
    case Dir(_, _) => |Names(t, l)| > MAX_FILES
    case Link(_, _) => false
  }

  /** `snapshot`: None is an error, an absent location is an image. */
  function Snapshot(t: Tree, l: Location): Option<Image> {
    match Walk(t, l)
    case Missing => Some(ABSENT)
    case Blocked => None
    case Found(n) => if l in t && !Oversized(t, l) then Some(ImageOf(n, Names(t, l))) else None
  }

  lemma {:induction false} WalkClosed(t: Tree, l: Location)
    requires Closed(t)
    ensures l in t ==> Walk(t, l) == Found(t[l])
    ensures l !in t ==> !Walk(t, l).Found?
    decreases |l.path|
  {
    if l.path != [] {
      WalkClosed(t, Parent(l));
      assert l in t ==> Hangs(t, l);
    }
  }

  lemma SnapshotClosed(t: Tree, l: Location)
    requires Closed(t)
    ensures l in t ==> Snapshot(t, l) == if Oversized(t, l) then None else Some(ImageAt(t, l))
    ensures l !in t ==> Snapshot(t, l) == None || Snapshot(t, l) == Some(ABSENT)
    ensures l !in t && l.path != [] && Parent(l) in t && t[Parent(l)].Dir? ==> Snapshot(t, l) == Some(ABSENT)
  {
    WalkClosed(t, l);
    if l.path != [] {
      WalkClosed(t, Parent(l));
    }
  }

  /** `publish`: one directory entry changes, or nothing does. */
  function Publish(d: Disk, l: Location, before: Kind, after: Image, data: Bytes): Option<Disk> {
    if l.path == [] || !(Walk(d.tree, Parent(l)).Found? && Walk(d.tree, Parent(l)).node.Dir?) then None
    else
      match after.kind
      case Absent =>
        if l !in d.tree || (d.tree[l].Dir? && Names(d.tree, l) != {}) then None
        else Some(d.(tree := d.tree - {l}))
      case DirKind =>
        if l in d.tree then None else Some(Insert(d, l, Dir(d.next, after.mode)))
      case LinkKind =>
        if (match before
            case Absent => l in d.tree
            case DirKind => true
            case _ => l in d.tree && d.tree[l].Dir?)
        then None else Some(Insert(d, l, Link(d.next, after.link)))
      case FileKind =>
        if (match before
            case Absent => l in d.tree
            case DirKind => true
            case LinkKind => l in d.tree && d.tree[l].Dir?
            case FileKind => !(l in d.tree && d.tree[l].File?))
        then None else Some(Insert(d, l, File(d.next, after.mode, data)))
  }

  function Insert(d: Disk, l: Location, n: Node): Disk {
    Disk(d.tree[l := n], d.next + 1)
  }

  function KindAt(t: Tree, l: Location): Kind {
    if l !in t then Absent
    else match t[l]
         case File(_, _, _) => FileKind
         case Dir(_, _) => DirKind
         case Link(_, _) => LinkKind
  }

  /** The transitions `publish` can carry out; closed under reversal. */
  predicate Supported(before: Kind, after: Kind) {
    match after
    case Absent => before != Absent
    case DirKind => before == Absent
    case _ => before != DirKind
  }

  /** The entry an After image asks for. */
  function Wanted(after: Image, data: Bytes): Option<Entry> {
    match after.kind
    case Absent => None
    case FileKind => Some(FileEntry(after.mode, data))
    case DirKind => Some(DirEntry(after.mode))
    case LinkKind => Some(LinkEntry(after.link))
  }

  /** A supported step over the kind it expects, with a directory above and, for a removal,
      nothing below, is carried out and changes exactly the entry it names. */
  lemma PublishMeans(d: Disk, l: Location, before: Kind, after: Image, data: Bytes)
    requires Closed(d.tree) && l.path != []
    requires Supported(before, after.kind) && KindAt(d.tree, l) == before
    requires Parent(l) in d.tree && d.tree[Parent(l)].Dir?
    requires after.kind == Absent ==> Names(d.tree, l) == {}
    ensures Publish(d, l, before, after, data).Some?
    ensures var e := Publish(d, l, before, after, data).value;
            && ViewOf(e.tree) == Put(ViewOf(d.tree), l, Wanted(after, data))
            && (forall k :: k != l ==> (k in e.tree <==> k in d.tree) && (k in d.tree ==> e.tree[k] == d.tree[k]))
  {
    WalkClosed(d.tree, Parent(l));
    var e := Publish(d, l, before, after, data).value;
    assert ViewOf(e.tree) == Put(ViewOf(d.tree), l, Wanted(after, data));
  }

  lemma ClosedBoth(t: Tree)
    ensures Closed(t) <==> ClosedView(ViewOf(t))
  {
    var v := ViewOf(t);
    if ClosedView(v) {
      forall l {:trigger Hangs(t, l)} | l in t
        ensures Hangs(t, l)
      {
        assert HangsIn(v, l);
      }
    }
    if Closed(t) {
      forall l {:trigger HangsIn(v, l)} | l in v
        ensures HangsIn(v, l)
      {
        assert Hangs(t, l);
      }
    }
  }
}
