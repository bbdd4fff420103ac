/**
 Archive receipts against cleanup readiness (internal/agenthistory/archive.go and
 find.go). Digests are injective, so a digest is represented by the bytes it is of.
 */
module Archiving {
  import opened Options
  import opened Ordering
  import Sync

  type Bytes = seq<bv8>

  const MAX_FILE_BYTES: nat := 134217728
  const MAX_FILES: nat := 256
  const MAX_PLANS: nat := 10000
  const MAX_SOURCES: nat := 10000

  /** A source entry: a regular file with its identity, or something an inventory refuses. */
  datatype Source = Regular(identity: nat, bytes: Bytes) | Irregular

  /** Where the archive keeps things; a content path carries the digest of its bytes. */
  datatype ArchivePath =
    | Attributes(project: string)
    | Content(project: string, provider: string, session: string, digest: Bytes)
    | Metadata(project: string, plan: string, index: nat)
    | OtherPath(name: string)

  datatype PlanStatus = Prepared | Applying | Partial | Complete | OtherStatus

  /** One source file as it was previewed: its own digest, and that of what will be archived. */
  datatype Snapshot = Snapshot(logical: string, token: Source, digest: Bytes, desired: Bytes, provider: string,
      session: string, payload: nat)

  datatype Record = Record(
    kind: string, project: string, status: PlanStatus, head: Option<nat>, snapshots: seq<Snapshot>, commit: Option<nat>)

  /** A stored plan that loads, or one that fails its integrity check. */
  datatype Entry = Damaged | Stored(record: Record)

  datatype World = World(
    sources: map<string, Source>,
    plans: map<string, Entry>,
    kept: map<(string, nat, bool), Bytes>,
    dag: Sync.Dag,
    trees: seq<map<ArchivePath, Bytes>>,
    head: Option<nat>,
    checkout: map<ArchivePath, Bytes>)

  predicate WorldOk(w: World) {
    Sync.Grounded(w.dag) && |w.trees| == |w.dag| && Sync.TipOk(w.dag, w.head)
  }

  function ContentOf(project: string, s: Snapshot): ArchivePath {
    Content(project, s.provider, s.session, s.desired)
  }

  /** A private plan file as read back: the payload to archive, or the unmodified original. */
  function Private(w: World, id: string, payload: nat, original: bool): Option<Bytes> {
    if (id, payload, original) in w.kept && |w.kept[(id, payload, original)]| <= MAX_FILE_BYTES
    then Some(w.kept[(id, payload, original)]) else None
  }

  function Blob(w: World, commit: nat, path: ArchivePath): Option<Bytes> {
    if commit < |w.trees| && path in w.trees[commit] then Some(w.trees[commit][path]) else None
  }

  predicate OriginalKept(w: World, id: string, s: Snapshot) {
    s.digest != s.desired ==> Private(w, id, s.payload, true) == Some(s.digest)
  }

  predicate SnapshotKept(w: World, id: string, project: string, commit: nat, s: Snapshot) {
    OriginalKept(w, id, s) && Blob(w, commit, ContentOf(project, s)) == Some(s.desired)
  }

  predicate Reachable(w: World, commit: nat)
    requires WorldOk(w)
  {
    w.head.Some? && Sync.IsAncestor(w.dag, commit, w.head.value)
  }

  /** The receipt check. */
  predicate ReceiptOk(w: World, id: string, r: Record)
    requires WorldOk(w)
  {
    && r.status == Complete && r.commit.Some? && Reachable(w, r.commit.value)
    && forall s <- r.snapshots :: SnapshotKept(w, id, r.project, r.commit.value, s)
  }

  method VerifyReceipt(w: World, id: string, r: Record) returns (fine: bool)
    requires WorldOk(w)
    ensures fine <==> ReceiptOk(w, id, r)
  {
    hide Reachable;
    if r.status != Complete || r.commit == None || !Reachable(w, r.commit.value) {
      return false;
    }
    for i := 0 to |r.snapshots|
      invariant forall j :: 0 <= j < i ==> SnapshotKept(w, id, r.project, r.commit.value, r.snapshots[j])
    {
      var s := r.snapshots[i];
      if s.digest != s.desired && Private(w, id, s.payload, true) != Some(s.digest) {
        assert !SnapshotKept(w, id, r.project, r.commit.value, s);
        return false;
      }
      if Blob(w, r.commit.value, ContentOf(r.project, s)) != Some(s.desired) {
        assert !SnapshotKept(w, id, r.project, r.commit.value, s);
        return false;
      }
    }
    return true;
  }

  // ---------------------------------------------------------------- readiness

  /** A plan whose receipt counts as evidence for a project. */
  predicate Evidence(w: World, id: string, project: string)
    requires WorldOk(w)
  {
    && id in w.plans && w.plans[id].Stored?
    && w.plans[id].record.kind == "artifact_archive" && w.plans[id].record.project == project
    && ReceiptOk(w, id, w.plans[id].record)
  }

  predicate Names(r: Record, file: string, bytes: Bytes) {
    exists s <- r.snapshots :: s.logical == file && s.digest == bytes
  }

  predicate CoveredBy(w: World, id: string, project: string, file: string, bytes: Bytes)
    requires WorldOk(w)
  {
    Evidence(w, id, project) && Names(w.plans[id].record, file, bytes)
  }

  predicate Covered(w: World, project: string, file: string, bytes: Bytes)
    requires WorldOk(w)
  {
    exists id <- w.plans :: CoveredBy(w, id, project, file, bytes)
  }

  predicate CurrentCovered(w: World, project: string, file: string)
    requires WorldOk(w) && file in w.sources
  {
    w.sources[file].Regular? && Covered(w, project, file, w.sources[file].bytes)
  }

  predicate Inspectable(w: World) {
    && |w.plans| <= MAX_PLANS && |w.sources| <= MAX_SOURCES
    && (forall id <- w.plans :: w.plans[id].Stored?)
    && forall f <- w.sources :: w.sources[f].Regular? && |w.sources[f].bytes| <= MAX_FILE_BYTES
  }

  datatype Readiness = Readiness(ready: bool, pending: seq<string>)

  /** A verified receipt of the project has a copy of the file with these bytes: in a blob of its reachable commit, or,
      where the archived form differs, as the private original of the file's snapshot. */
  predicate CopyIn(w: World, id: string, project: string, file: string, bytes: Bytes)
    requires WorldOk(w)
  {
    && Evidence(w, id, project) && w.plans[id].record.commit.Some? && Reachable(w, w.plans[id].record.commit.value)
    && exists s <- w.plans[id].record.snapshots :: IsCopy(w, id, w.plans[id].record, s, file, bytes)
  }

  predicate IsCopy(w: World, id: string, r: Record, s: Snapshot, file: string, bytes: Bytes) {
    && s.logical == file && s.digest == bytes && r.commit.Some?
    && if s.desired == bytes then Blob(w, r.commit.value, ContentOf(r.project, s)) == Some(bytes)
          else Private(w, id, s.payload, true) == Some(bytes)
  }

  /** The bytes of the file can be had back. */
  predicate Recoverable(w: World, project: string, file: string, bytes: Bytes)
    requires WorldOk(w)
  {
    exists id <- w.plans :: CopyIn(w, id, project, file, bytes)
  }

  /** The plans whose receipts verify, in the order of the listing; no answer when a stored plan does not load. */
  method Receipts(w: World, project: string, ids: seq<string>) returns (records: Option<seq<string>>)
    requires WorldOk(w) && forall id <- ids :: id in w.plans
    ensures records.Some? <==> forall id <- ids :: w.plans[id].Stored?
    ensures records.Some? ==> forall id :: id in records.value <==> id in ids && Evidence(w, id, project)
  {
    hide *;
    var found: seq<string> := [];
    for i := 0 to |ids|
      invariant forall j :: 0 <= j < i ==> w.plans[ids[j]].Stored?
      invariant forall id :: id in found <==> id in ids[..i] && Evidence(w, id, project)
    {
      var id := ids[i];
      assert id in ids && ids[..i + 1] == ids[..i] + [id];
      if w.plans[id].Damaged? {
        return None;
      }
      var p := w.plans[id].record;
      EvidenceIs(w, id, project);
      if p.kind == "artifact_archive" && p.status == Complete && p.project == project {
        var fine := VerifyReceipt(w, id, p);
        if fine {
          found := found + [id];
        }
      } else {
        NoReceipt(w, id, p);
      }
    }
    assert ids[..|ids|] == ids;
    return Some(found);
  }

  lemma EvidenceIs(w: World, id: string, project: string)
    requires WorldOk(w) && id in w.plans && w.plans[id].Stored?
    ensures var p := w.plans[id].record;
      Evidence(w, id, project) <==> p.kind == "artifact_archive" && p.project == project && ReceiptOk(w, id, p)
  {
    hide ReceiptOk;
  }

  lemma InspectableIs(w: World)
    ensures Inspectable(w) <==>
      && |w.plans| <= MAX_PLANS && |w.sources| <= MAX_SOURCES
      && (forall id <- w.plans :: w.plans[id].Stored?)
      && forall f <- w.sources :: w.sources[f].Regular? && |w.sources[f].bytes| <= MAX_FILE_BYTES
  {
  }

  /** The files no verified receipt names with their current bytes. */
  method Unproven(w: World, project: string, files: seq<string>, records: seq<string>)
    returns (pending: Option<seq<string>>)
    requires WorldOk(w) && forall f <- files :: f in w.sources && w.sources[f].Regular?
    requires forall id :: id in records <==> id in w.plans && Evidence(w, id, project)
    ensures pending.Some? <==> forall f <- files :: |w.sources[f].bytes| <= MAX_FILE_BYTES
    ensures pending.Some? ==> forall f :: f in pending.value <==> f in files && !CurrentCovered(w, project, f)
  {
    hide *;
    var out: seq<string> := [];
    for i := 0 to |files|
      invariant forall j :: 0 <= j < i ==> |w.sources[files[j]].bytes| <= MAX_FILE_BYTES
      invariant forall f :: f in out <==> f in files[..i] && !CurrentCovered(w, project, f)
    {
      var file := files[i];
      assert file in files && files[..i + 1] == files[..i] + [file];
      var bytes := w.sources[file].bytes;
      if |bytes| > MAX_FILE_BYTES {
        return None;
      }
      FoundIsCovered(w, project, file, records);
      var found := exists id <- records :: Names(w.plans[id].record, file, bytes);
      if !found {
        out := out + [file];
      }
    }
    assert files[..|files|] == files;
    return Some(out);
  }

  /** Which sources still lack an archived, verified copy of their current bytes. */
  method Ready(w: World, project: string, archiveMode: bool, captureFine: bool) returns (r: Option<Readiness>)
    requires WorldOk(w)
    ensures !archiveMode ==> r == Some(Readiness(true, []))
    ensures archiveMode ==> (r.Some? <==> Inspectable(w) && captureFine)
    ensures archiveMode && r.Some? ==> r.value.ready == (r.value.pending == [])
    ensures archiveMode && r.Some? ==>
              forall f :: f in r.value.pending <==> f in w.sources && !CurrentCovered(w, project, f)
  {
    hide *;
    if !archiveMode {
      return Some(Readiness(true, []));
    }
    InspectableIs(w);
    if !captureFine || |w.sources| > MAX_SOURCES || exists f <- w.sources :: w.sources[f].Irregular? {
      return None;
    }
    var ids := Listed(w.plans.Keys);
    if |ids| > MAX_PLANS {
      return None;
    }
    var records := Receipts(w, project, ids);
    if records == None {
      return None;
    }
    var files := Listed(w.sources.Keys);
    var pending := Unproven(w, project, files, records.value);
    if pending == None {
      return None;
    }
    return Some(Readiness(pending.value == [], pending.value));
  }

  lemma NoReceipt(w: World, id: string, p: Record)
    requires WorldOk(w)
    ensures p.status != Complete ==> !ReceiptOk(w, id, p)
  {
  }

  lemma FoundIsCovered(w: World, project: string, file: string, records: seq<string>)
    requires WorldOk(w) && file in w.sources && w.sources[file].Regular?
    requires forall id :: id in records <==> id in w.plans && Evidence(w, id, project)
    ensures forall id <- records :: id in w.plans && w.plans[id].Stored?
    ensures (exists id <- records :: Names(w.plans[id].record, file, w.sources[file].bytes)) <==>
              CurrentCovered(w, project, file)
  {
    hide ReceiptOk, Names;
    var bytes := w.sources[file].bytes;
    forall id | id in records && Names(w.plans[id].record, file, bytes)
      ensures CurrentCovered(w, project, file)
    {
      assert CoveredBy(w, id, project, file, bytes);
    }
    if CurrentCovered(w, project, file) {
      var id :| id in w.plans && CoveredBy(w, id, project, file, bytes);
      assert id in records;
    }
  }

  /** A file is not pending exactly when a verified receipt has a copy of its current bytes to give back. */
  lemma ReadyMeansRecoverable(w: World, project: string, file: string)
    requires WorldOk(w) && file in w.sources
    ensures CurrentCovered(w, project, file) <==>
              w.sources[file].Regular? && Recoverable(w, project, file, w.sources[file].bytes)
  {
    hide Reachable, ReceiptOk, SnapshotKept;
    if w.sources[file].Regular? {
      var bytes := w.sources[file].bytes;
      forall id | id in w.plans
        ensures CoveredBy(w, id, project, file, bytes) <==> CopyIn(w, id, project, file, bytes)
      {
        if CoveredBy(w, id, project, file, bytes) {
          NamedIsCopied(w, id, project, file, bytes);
        }
      }
    }
  }

  lemma NamedIsCopied(w: World, id: string, project: string, file: string, bytes: Bytes)
    requires WorldOk(w) && CoveredBy(w, id, project, file, bytes)
    ensures CopyIn(w, id, project, file, bytes)
  {
    hide Reachable;
    var r := w.plans[id].record;
    var s :| s in r.snapshots && s.logical == file && s.digest == bytes;
    assert SnapshotKept(w, id, r.project, r.commit.value, s);
    assert IsCopy(w, id, r, s, file, bytes);
  }

  // ---------------------------------------------------------------- the archive commit

  type Tree = map<ArchivePath, Bytes>

  function TreeAt(w: World, commit: Option<nat>): Tree {
    if commit.Some? && commit.value < |w.trees| then w.trees[commit.value] else map[]
  }

  predicate Differs(a: Tree, b: Tree, p: ArchivePath) {
    (p in a) != (p in b) || (p in a && a[p] != b[p])
  }

  /** The commit verification: nothing unreviewed changed, everything reviewed is there, and the parent is the pinned head. */
  predicate CommitExact(w: World, parent: Option<nat>, commit: nat, expected: Tree) {
    && commit < |w.trees| && commit < |w.dag|
    && (forall p <- TreeAt(w, parent).Keys + w.trees[commit].Keys :: Differs(TreeAt(w, parent), w.trees[commit], p) ==> p in expected)
    && (forall p <- expected :: p in w.trees[commit] && w.trees[commit][p] == expected[p])
    && (parent.Some? ==> w.dag[commit] == {parent.value})
  }

  /** So the commit is exactly the pinned head with the reviewed files put on top. */
  lemma CommitIsReviewed(w: World, parent: Option<nat>, commit: nat, expected: Tree)
    requires CommitExact(w, parent, commit, expected)
    ensures w.trees[commit] == TreeAt(w, parent) + expected
  {
    var a, b := TreeAt(w, parent), w.trees[commit];
    forall p
      ensures p in b <==> p in a + expected
      ensures p in b ==> b[p] == (a + expected)[p]
    {
      if p !in expected {
        if p in a.Keys + b.Keys {
          assert !Differs(a, b, p);
        }
      }
    }
  }

  /** Evidence that commits only ever get added, and the new head still reaches the old one. */
  lemma OldStaysReachable(w: World, v: World, commit: nat)
    requires WorldOk(w) && WorldOk(v) && Sync.Extends(w.dag, v.dag) && Reachable(w, commit)
    requires v.head.Some? && (w.head.Some? ==> Sync.IsAncestor(v.dag, w.head.value, v.head.value))
    ensures Reachable(v, commit)
  {
    Sync.ReachTrans(v.dag, w.head.value, v.head.value);
  }

  lemma {:induction false} PrefixReach(dag: Sync.Dag, more: Sync.Dag, tip: nat)
    requires Sync.Grounded(dag) && Sync.Grounded(more) && dag <= more && tip < |dag|
    ensures Sync.Reach(more, tip) == Sync.Reach(dag, tip)
    decreases tip
  {
    assert more[tip] == dag[tip];
    forall p | p in dag[tip]
      ensures Sync.Reach(more, p) == Sync.Reach(dag, p)
    {
      PrefixReach(dag, more, p);
    }
  }

  lemma PrefixExtends(dag: Sync.Dag, more: Sync.Dag)
    requires Sync.Grounded(dag) && Sync.Grounded(more) && dag <= more
    ensures Sync.Extends(dag, more)
  {
    forall tip: nat | tip < |dag|
      ensures Sync.Reach(more, tip) == Sync.Reach(dag, tip)
    {
      PrefixReach(dag, more, tip);
    }
  }

  // ---------------------------------------------------------------- preview and apply

  /** The attribute lines, the record text and the redaction are fixed functions of their inputs. */
  datatype Rules = Rules(
    attributes: Bytes,
    metadata: (string, nat) -> Bytes,
    identify: (string, Bytes) -> Option<(string, string)>,
    protect: (string, Bytes) -> Option<Bytes>)

  /** A snapshot as previewed: its digest is of the source bytes, and both copies are kept. */
  predicate Previewed(w: World, id: string, n: nat, s: Snapshot) {
    && s.payload == n && s.token.Regular? && s.digest == s.token.bytes
    && (id, n, false) in w.kept && w.kept[(id, n, false)] == s.desired
    && (id, n, true) in w.kept && w.kept[(id, n, true)] == s.digest
  }

  predicate SourceKept(w: World, s: Snapshot) {
    s.logical in w.sources && w.sources[s.logical] == s.token
  }

  /** A source that can be previewed: regular, within the size limit, identified and let through by protection. */
  predicate Takeable(rules: Rules, sources: map<string, Source>, logical: string) {
    && logical in sources && sources[logical].Regular? && |sources[logical].bytes| <= MAX_FILE_BYTES
    && rules.identify(logical, sources[logical].bytes).Some? && rules.protect(logical, sources[logical].bytes).Some?
  }

  predicate Chosen(w: World, id: string, n: nat, s: Snapshot, logical: string) {
    Previewed(w, id, n, s) && s.logical == logical && SourceKept(w, s)
  }

  lemma ChosenNow(w: World, id: string, n: nat, s: Snapshot, logical: string)
    requires Previewed(w, id, n, s) && s.logical == logical && SourceKept(w, s)
    ensures Chosen(w, id, n, s, logical)
  {
  }

  lemma ChosenStays(w: World, v: World, id: string, n: nat, m: nat, s: Snapshot, logical: string)
    requires Chosen(w, id, m, s, logical) && m != n && v.sources == w.sources
    requires forall k :: k in w.kept && k != (id, n, true) && k != (id, n, false) ==>
              k in v.kept && v.kept[k] == w.kept[k]
    ensures Chosen(v, id, m, s, logical)
  {
    assert (id, m, false) in w.kept && (id, m, true) in w.kept;
  }

  lemma OkStays(w: World, v: World)
    requires WorldOk(w) && v.dag == w.dag && v.trees == w.trees && v.head == w.head
    ensures WorldOk(v)
  {
  }

  /** The part of the archive that belongs to one project. */
  predicate OwnPath(project: string, p: ArchivePath) {
    match p
    case Attributes(q) => q == project
    case Content(q, _, _, _) => q == project
    case Metadata(q, _, _) => q == project
    case OtherPath(_) => false
  }

  /** What every apply checks of each snapshot: the source is untouched and the payload is the reviewed one. */
  predicate SnapshotCurrent(w: World, id: string, s: Snapshot) {
    SourceKept(w, s) && Private(w, id, s.payload, false) == Some(s.desired)
  }

  predicate AllCurrent(w: World, id: string, r: Record) {
    forall s <- r.snapshots :: SnapshotCurrent(w, id, s)
  }

  /** A completed apply: the receipt names the archive's head, which holds every reviewed payload. */
  predicate Archived(w: World, id: string, r: Record)
    requires WorldOk(w)
  {
    && r.status == Complete && r.commit.Some? && r.commit == w.head
    && (forall s <- r.snapshots :: Blob(w, r.commit.value, ContentOf(r.project, s)) == Some(s.desired))
    && AllCurrent(w, id, r)
  }

  predicate OriginalsKept(w: World, id: string, r: Record) {
    forall s <- r.snapshots :: OriginalKept(w, id, s)
  }

  /** Right after a completed apply the receipt verifies exactly when every redacted original is still kept. */
  lemma ReceiptAfterApply(w: World, id: string, r: Record)
    requires WorldOk(w) && Archived(w, id, r)
    ensures ReceiptOk(w, id, r) <==> OriginalsKept(w, id, r)
  {
    Sync.SelfReach(w.dag, w.head.value);
    if ReceiptOk(w, id, r) {
      forall s | s in r.snapshots ensures OriginalKept(w, id, s) { assert SnapshotKept(w, id, r.project, r.commit.value, s); }
    }
  }

  /** Another receipt has a copy. */
  predicate CoveredElsewhere(w: World, id: string, project: string, file: string, bytes: Bytes)
    requires WorldOk(w)
  {
    exists other <- w.plans :: other != id && CoveredBy(w, other, project, file, bytes)
  }

  /** After a completed apply a file it archived is off the pending list exactly when every redacted original of the plan
      is still kept, or another receipt has a copy: one lost original brings all of them back. */
  lemma ArchivedIsCovered(w: World, id: string, s: Snapshot)
    requires WorldOk(w) && id in w.plans && w.plans[id].Stored? && w.plans[id].record.kind == "artifact_archive"
    requires var r := w.plans[id].record; Archived(w, id, r) && s in r.snapshots && s.token.Regular? && s.digest == s.token.bytes
    ensures var r := w.plans[id].record;
      && s.logical in w.sources
      && (CurrentCovered(w, r.project, s.logical) <==> OriginalsKept(w, id, r) || CoveredElsewhere(w, id, r.project, s.logical, s.digest))
  {
    var r := w.plans[id].record;
    ReceiptAfterApply(w, id, r);
    assert SnapshotCurrent(w, id, s);
    hide ReceiptOk, OriginalsKept, Blob, Private;
    assert Names(r, s.logical, w.sources[s.logical].bytes);
    assert CoveredBy(w, id, r.project, s.logical, w.sources[s.logical].bytes) <==> OriginalsKept(w, id, r);
  }

  /** What one apply leaves alone: other plans, existing commits and existing archive files. */
  predicate Conserves(w: World, v: World, id: string)
    requires WorldOk(w) && WorldOk(v)
  {
    && w.dag <= v.dag && w.trees <= v.trees
    && (forall other <- w.plans :: other != id ==> other in v.plans && v.plans[other] == w.plans[other])
    && forall p <- w.checkout :: p in v.checkout && v.checkout[p] == w.checkout[p]
  }

  /** Evidence from other plans survives a completed apply. */
  lemma EvidenceSurvives(w: World, v: World, id: string, other: string, project: string)
    requires WorldOk(w) && WorldOk(v) && Conserves(w, v, id) && other != id
    requires v.kept == w.kept && v.head.Some? && (w.head.Some? ==> Sync.IsAncestor(v.dag, w.head.value, v.head.value))
    requires Evidence(w, other, project)
    ensures Evidence(v, other, project)
  {
    var r := w.plans[other].record;
    PrefixExtends(w.dag, v.dag);
    OldStaysReachable(w, v, r.commit.value);
    hide Reachable;
    forall s | s in r.snapshots
      ensures SnapshotKept(v, other, r.project, r.commit.value, s)
    {
      assert SnapshotKept(w, other, r.project, r.commit.value, s);
    }
  }

  datatype Outcome = Done | AlreadyDone(verified: bool) | Refused | Stopped

  function WithStatus(r: Record, status: PlanStatus): Record { r.(status := status) }

  /** The archive repository after a commit command, hooks and all. */
  datatype Repo = Repo(dag: Sync.Dag, trees: seq<Tree>, head: Option<nat>)

  /** What the outside does around one step: edits to sources and private files, a check's answer, a commit command's result. */
  datatype Moment = Moment(sources: Option<map<string, Source>>, kept: Option<map<(string, nat, bool), Bytes>>, yes: bool, repo: Repo)

  /** Nobody else edits anything, and no check refuses. */
  ghost predicate Undisturbed(outside: nat -> Moment) {
    forall n: nat :: outside(n).sources == None && outside(n).kept == None && outside(n).yes
  }

  /** Nobody else touches the private plan files; the sources are free. */
  ghost predicate PrivateAlone(outside: nat -> Moment) {
    forall n: nat :: outside(n).kept == None
  }

  function WithRepo(w: World, repo: Repo): World { w.(dag := repo.dag, trees := repo.trees, head := repo.head) }

  /** Commits are only ever added. */
  predicate RepoGrows(w: World, repo: Repo) {
    WorldOk(WithRepo(w, repo)) && w.dag <= repo.dag && w.trees <= repo.trees
  }

  /** What an archive path of a plan holds; the path alone decides. */
  function ValueAt(rules: Rules, p: ArchivePath): Bytes {
    match p
    case Attributes(_) => rules.attributes
    case Content(_, _, _, digest) => digest
    case Metadata(_, id, n) => rules.metadata(id, n)
    case OtherPath(_) => []
  }

  /** The files of the commit, up to snapshot `n`. */
  function ExpectedTo(rules: Rules, id: string, r: Record, n: nat): Tree
    requires n <= |r.snapshots|
  {
    if n == 0 then map[Attributes(r.project) := rules.attributes]
    else
      var s := r.snapshots[n - 1];
      ExpectedTo(rules, id, r, n - 1)[ContentOf(r.project, s) := s.desired][Metadata(r.project, id, n - 1) := rules.metadata(id, n - 1)]
  }

  lemma {:induction false} ExpectedIs(rules: Rules, id: string, r: Record, n: nat)
    requires n <= |r.snapshots|
    ensures forall p <- ExpectedTo(rules, id, r, n) :: OwnPath(r.project, p) && ExpectedTo(rules, id, r, n)[p] == ValueAt(rules, p)
    ensures forall j :: 0 <= j < n ==> ContentOf(r.project, r.snapshots[j]) in ExpectedTo(rules, id, r, n)
  {
    if n > 0 {
      ExpectedIs(rules, id, r, n - 1);
    }
  }

  /** Nothing in the checkout is in the way of the plan. */
  predicate Compatible(rules: Rules, project: string, checkout: Tree) {
    forall p <- checkout :: OwnPath(project, p) ==> checkout[p] == ValueAt(rules, p)
  }

  /** The commit command turns the reviewed files into exactly one commit on the pinned head. */
  predicate CommitsReviewed(w: World, repo: Repo, rules: Rules, id: string, r: Record) {
    && RepoGrows(w, repo) && repo.head.Some?
    && CommitExact(WithRepo(w, repo), r.head, repo.head.value, ExpectedTo(rules, id, r, |r.snapshots|))
  }

  lemma CommitExactSame(w: World, v: World, parent: Option<nat>, commit: nat, expected: Tree)
    requires v.dag == w.dag && v.trees == w.trees
    ensures CommitExact(w, parent, commit, expected) <==> CommitExact(v, parent, commit, expected)
  {
  }

  /** A plan that an undisturbed apply carries through; the commit command is at step `|snapshots| + 4`. */
  predicate Applies(w: World, outside: nat -> Moment, rules: Rules, id: string)
    requires WorldOk(w)
  {
    && id in w.plans && w.plans[id].Stored?
    && var r := w.plans[id].record;
    && r.kind == "artifact_archive" && r.status == Prepared && w.head == r.head && AllCurrent(w, id, r)
    && Compatible(rules, r.project, w.checkout)
    && CommitsReviewed(w, outside(|r.snapshots| + 4).repo, rules, id, r)
  }

  class History {
    const rules: Rules
    const outside: nat -> Moment
    var clock: nat
    var w: World

    constructor (rules: Rules, outside: nat -> Moment, w: World)
      requires WorldOk(w)
      ensures this.rules == rules && this.outside == outside && clock == 0 && this.w == w
    {
      this.rules := rules;
      this.outside := outside;
      clock := 0;
      this.w := w;
    }

    /** One file: its bytes are kept as they are and, when protection allows, as they will be archived. */
    method PreviewOne(id: string, n: nat, logical: string) returns (s: Option<Snapshot>)
      requires WorldOk(w) && logical in w.sources
      modifies this`w
      ensures w == old(w).(kept := w.kept)
      ensures forall k :: k != (id, n, true) && k != (id, n, false) ==>
                (k in w.kept <==> k in old(w.kept)) && (k in w.kept ==> w.kept[k] == old(w.kept)[k])
      ensures s.Some? ==> Previewed(w, id, n, s.value) && s.value.logical == logical && SourceKept(w, s.value)
      ensures s.Some? <==> Takeable(rules, w.sources, logical)
    {
      var source := w.sources[logical];
      if source.Irregular? || |source.bytes| > MAX_FILE_BYTES {
        return None;
      }
      var who := rules.identify(logical, source.bytes);
      if who == None {
        return None;
      }
      w := w.(kept := w.kept[(id, n, true) := source.bytes]);
      var desired := rules.protect(logical, source.bytes);
      if desired == None {
        return None;
      }
      w := w.(kept := w.kept[(id, n, false) := desired.value]);
      return Some(Snapshot(logical, source, source.bytes, desired.value, who.value.0, who.value.1, n));
    }

    /** Reads and keeps each chosen file, and saves the plan; nothing is archived yet. */
    method PreviewArchive(id: string, project: string, chosen: seq<string>) returns (r: Option<Record>)
      requires WorldOk(w) && id !in w.plans
      modifies this`w
      ensures w == old(w).(plans := w.plans, kept := w.kept)
      ensures r.Some? <==> 1 <= |chosen| <= MAX_FILES && forall f <- chosen :: Takeable(rules, old(w.sources), f)
      ensures w.plans == if r.Some? then old(w.plans)[id := Stored(r.value)] else old(w.plans)
      ensures r.Some? ==>
                1 <= |chosen| <= MAX_FILES && r.value == Record("artifact_archive", project, Prepared, w.head, r.value.snapshots, None)
      ensures r.Some? ==> |r.value.snapshots| == |chosen| && forall n :: 0 <= n < |chosen| ==>
                Chosen(w, id, n, r.value.snapshots[n], chosen[n])
      ensures forall k :: k in old(w.kept) && k.0 != id ==> k in w.kept && w.kept[k] == old(w.kept)[k]
    {
      if chosen == [] || |chosen| > MAX_FILES || exists f <- chosen :: f !in w.sources {
        return None;
      }
      hide *;
      assert forall f <- chosen :: f in w.sources;
      var snapshots: seq<Snapshot> := [];
      for n := 0 to |chosen|
        invariant |snapshots| == n
        invariant w == old(w).(kept := w.kept)
        invariant forall m :: 0 <= m < n ==>
                  Chosen(w, id, m, snapshots[m], chosen[m]) && Takeable(rules, w.sources, chosen[m])
        invariant forall k :: k in old(w.kept) && k.0 != id ==> k in w.kept && w.kept[k] == old(w.kept)[k]
      {
        ghost var before := w;
        assert chosen[n] in chosen;
        OkStays(old(w), w);
        var s := PreviewOne(id, n, chosen[n]);
        if s == None {
          return None;
        }
        forall m | 0 <= m < n
          ensures Chosen(w, id, m, snapshots[m], chosen[m])
        {
          ChosenStays(before, w, id, n, m, snapshots[m], chosen[m]);
        }
        ChosenNow(w, id, n, s.value, chosen[n]);
        snapshots := snapshots + [s.value];
      }
      var record := Record("artifact_archive", project, Prepared, w.head, snapshots, None);
      ghost var before := w;
      w := w.(plans := w.plans[id := Stored(record)]);
      forall m | 0 <= m < |chosen|
        ensures Chosen(w, id, m, snapshots[m], chosen[m])
      {
        ChosenStays(before, w, id, |chosen|, m, snapshots[m], chosen[m]);
      }
      return Some(record);
    }

    /** The recorder, the user and anything else may touch sources and private files between two steps. */
    method Tick() returns (now: Moment)
      requires WorldOk(w)
      modifies this`clock, this`w
      ensures WorldOk(w) && w == old(w).(sources := w.sources, kept := w.kept)
      ensures clock == old(clock) + 1 && now == outside(old(clock))
      ensures Undisturbed(outside) ==> now.yes && w == old(w)
      ensures PrivateAlone(outside) ==> w.kept == old(w.kept)
    {
      now := outside(clock);
      clock := clock + 1;
      if now.sources.Some? {
        w := w.(sources := now.sources.value);
      }
      if now.kept.Some? {
        w := w.(kept := now.kept.value);
      }
    }

    method ValidateSnapshots(id: string, r: Record) returns (fine: bool)
      requires WorldOk(w)
      modifies this`clock, this`w
      ensures WorldOk(w) && w == old(w).(sources := w.sources, kept := w.kept) && clock == old(clock) + 1
      ensures fine ==> AllCurrent(w, id, r)
      ensures Undisturbed(outside) ==> w == old(w) && (fine <==> AllCurrent(w, id, r))
      ensures PrivateAlone(outside) ==> w.kept == old(w.kept)
    {
      hide Undisturbed, PrivateAlone;
      var now := Tick();
      fine := now.yes;
      if !fine {
        return;
      }
      for i := 0 to |r.snapshots|
        invariant forall j :: 0 <= j < i ==> SnapshotCurrent(w, id, r.snapshots[j])
      {
        if !SnapshotCurrent(w, id, r.snapshots[i]) {
          return false;
        }
      }
    }

    /** Writes one archive file unless it is there; a different one there stops the apply. */
    method Put(path: ArchivePath, data: Bytes) returns (fine: bool)
      requires WorldOk(w)
      modifies this`w
      ensures WorldOk(w) && w == old(w).(checkout := w.checkout)
      ensures fine ==> w.checkout == old(w.checkout)[path := data]
      ensures !fine ==> w.checkout == old(w.checkout)
      ensures fine <==> path !in old(w.checkout) || old(w.checkout)[path] == data
    {
      if path in w.checkout {
        if w.checkout[path] != data {
          return false;
        }
      }
      w := w.(checkout := w.checkout[path := data]);
      return true;
    }

    /** `git commit`: commits are only added, the head may be anything. */
    method GitCommit() returns (fine: bool)
      requires WorldOk(w)
      modifies this`clock, this`w
      ensures WorldOk(w) && w == old(w).(sources := w.sources, kept := w.kept, dag := w.dag, trees := w.trees, head := w.head)
      ensures old(w.dag) <= w.dag && old(w.trees) <= w.trees && clock == old(clock) + 1
      ensures Undisturbed(outside) && RepoGrows(old(w), outside(old(clock)).repo) ==>
                fine && w == WithRepo(old(w), outside(old(clock)).repo)
      ensures PrivateAlone(outside) ==> w.kept == old(w.kept)
    {
      hide Undisturbed, PrivateAlone;
      var now := Tick();
      fine := now.yes;
      if RepoGrows(w, now.repo) {
        w := WithRepo(w, now.repo);
      }
    }

    /** Puts every reviewed file and its record into the checkout, and lists them for the commit. */
    method PutAll(id: string, r: Record) returns (fine: bool, expected: Tree)
      requires WorldOk(w)
      modifies this`clock, this`w
      ensures WorldOk(w) && w == old(w).(sources := w.sources, kept := w.kept, checkout := w.checkout)
      ensures forall p :: p in old(w.checkout) ==> p in w.checkout && w.checkout[p] == old(w.checkout)[p]
      ensures fine ==> expected == ExpectedTo(rules, id, r, |r.snapshots|) && clock == old(clock) + |r.snapshots|
      ensures Undisturbed(outside) ==> w == old(w).(checkout := w.checkout)
      ensures Undisturbed(outside) && AllCurrent(old(w), id, r) && Compatible(rules, r.project, old(w.checkout)) ==>
                fine
      ensures PrivateAlone(outside) ==> w.kept == old(w.kept)
    {
      hide *;
      expected := map[];
      fine := Put(Attributes(r.project), rules.attributes);
      CompatibleAt(rules, r.project, w.checkout, Attributes(r.project));
      CompatibleMore(rules, r.project, old(w.checkout), Attributes(r.project), rules.attributes);
      CompatibleAt(rules, r.project, old(w.checkout), Attributes(r.project));
      if !fine {
        return;
      }
      expected := map[Attributes(r.project) := rules.attributes];
      ExpectedStart(rules, id, r);
      for n := 0 to |r.snapshots|
        invariant WorldOk(w) && w == old(w).(sources := w.sources, kept := w.kept, checkout := w.checkout)
        invariant forall p :: p in old(w.checkout) ==> p in w.checkout && w.checkout[p] == old(w.checkout)[p]
        invariant expected == ExpectedTo(rules, id, r, n) && clock == old(clock) + n
        invariant Undisturbed(outside) ==> w == old(w).(checkout := w.checkout)
        invariant PrivateAlone(outside) ==> w.kept == old(w.kept)
        invariant Compatible(rules, r.project, old(w.checkout)) ==> Compatible(rules, r.project, w.checkout)
      {
        var _ := Tick();
        var s := r.snapshots[n];
        var data := Private(w, id, s.payload, false);
        CurrentAt(old(w), w, id, r, n);
        if data != Some(s.desired) {
          return false, expected;
        }
        CompatibleAt(rules, r.project, w.checkout, ContentOf(r.project, s));
        CompatibleMore(rules, r.project, w.checkout, ContentOf(r.project, s), s.desired);
        PathValues(rules, id, r, s, n);
        fine := Put(ContentOf(r.project, s), s.desired);
        if !fine {
          return;
        }
        CompatibleAt(rules, r.project, w.checkout, Metadata(r.project, id, n));
        CompatibleMore(rules, r.project, w.checkout, Metadata(r.project, id, n), rules.metadata(id, n));
        fine := Put(Metadata(r.project, id, n), rules.metadata(id, n));
        if !fine {
          return;
        }
        ExpectedNext(rules, id, r, n);
        expected := expected[ContentOf(r.project, s) := s.desired][Metadata(r.project, id, n) := rules.metadata(id, n)];
      }
      fine := true;
    }

    /** The steps between the status mark and the finished receipt. */
    method Publish(id: string, r: Record, guard: bool) returns (commit: Option<nat>)
      requires WorldOk(w)
      modifies this`clock, this`w
      ensures WorldOk(w) && Conserves(old(w), w, id) && w.plans == old(w.plans)
      ensures commit.Some? ==> commit == w.head && AllCurrent(w, id, r)
      ensures commit.Some? ==>
                forall s <- r.snapshots :: Blob(w, commit.value, ContentOf(r.project, s)) == Some(s.desired)
      ensures commit.Some? && r.head.Some? ==> commit.value < |w.dag| && w.dag[commit.value] == {r.head.value}
      ensures commit.Some? ==>
                forall p :: Differs(TreeAt(w, r.head), w.trees[commit.value], p) ==> OwnPath(r.project, p)
      ensures (&& Undisturbed(outside) && guard && old(w.head) == r.head && AllCurrent(old(w), id, r)
               && Compatible(rules, r.project, old(w.checkout))
               && CommitsReviewed(old(w), outside(old(clock) + |r.snapshots| + 2).repo, rules, id, r)) ==> commit.Some?
      ensures PrivateAlone(outside) ==> w.kept == old(w.kept)
    {
      hide *;
      ghost var w0 := w;
      var fine, expected := PutAll(id, r);
      ConservesSame(w0, w, id);
      if !fine {
        return None;
      }
      AllCurrentMoves(w0, w, id, r);
      fine := ValidateSnapshots(id, r);
      ConservesSame(w0, w, id);
      if !fine || !guard {
        return None;
      }
      var token := Tick();
      ConservesSame(w0, w, id);
      if !token.yes || w.head != r.head {
        return None;
      }
      ghost var before := w;
      ghost var repo := outside(clock).repo;
      ReviewedSame(w0, w, repo, rules, id, r);
      fine := GitCommit();
      ConservesSame(w0, w, id);
      if !fine || w.head == None || !CommitExact(w, r.head, w.head.value, expected) {
        RepoIs(before, repo);
        return None;
      }
      CommitIsReviewed(w, r.head, w.head.value, expected);
      Reviewed(w, r.head, w.head.value, rules, id, r);
      RepoIs(before, repo);
      AllCurrentMoves(before, w, id, r);
      ghost var v := w;
      fine := ValidateSnapshots(id, r);
      ConservesSame(w0, w, id);
      if !fine {
        return None;
      }
      BlobSame(v, w, r);
      commit := w.head;
    }

    /** Archives the previewed snapshots in one commit; sources are never written. */
    method ApplyArchive(id: string, writerStopped: bool, guard: bool) returns (o: Outcome)
      requires WorldOk(w) && clock == 0
      modifies this`clock, this`w
      ensures WorldOk(w) && Conserves(old(w), w, id)
      ensures o.Done? ==> id in old(w.plans) && old(w.plans[id]).Stored? && old(w.plans[id]).record.status == Prepared
      ensures o.Done? ==> id in w.plans && w.plans[id].Stored? && Archived(w, id, w.plans[id].record)
      ensures o.Done? ==> w.plans[id].record == old(w.plans[id]).record.(status := Complete, commit := w.head)
      ensures o.Done? && w.plans[id].record.head.Some? ==>
                Sync.IsAncestor(w.dag, w.plans[id].record.head.value, w.head.value)
      ensures o.Done? ==> forall p :: Differs(TreeAt(w, w.plans[id].record.head), w.trees[w.head.value], p) ==>
                OwnPath(w.plans[id].record.project, p)
      ensures o.Stopped? ==> id in w.plans && w.plans[id].Stored? && w.plans[id].record.status == Partial
      ensures o.AlreadyDone? || o.Refused? ==>
                w.plans == old(w.plans) && w.head == old(w.head) && w.checkout == old(w.checkout)
      ensures o.AlreadyDone? ==> id in old(w.plans) && old(w.plans[id]).Stored?
      ensures o.AlreadyDone? ==> old(w.plans[id]).record.status == Complete && o.verified == ReceiptOk(old(w), id, old(w.plans[id]).record)
      ensures Undisturbed(outside) && writerStopped && guard && Applies(old(w), outside, rules, id) ==> o.Done?
      ensures PrivateAlone(outside) ==> w.kept == old(w.kept)
    {
      hide *;
      ghost var w0 := w;
      ConservesSame(w0, w0, id);
      AppliesIs(w0, outside, rules, id);
      if id !in w.plans || w.plans[id].Damaged? {
        return Refused;
      }
      var r := w.plans[id].record;
      if r.kind != "artifact_archive" {
        return Refused;
      }
      if r.status == Complete {
        var verified := VerifyReceipt(w, id, r);
        return AlreadyDone(verified);
      }
      if r.status != Prepared || !writerStopped {
        return Refused;
      }
      var fine := ValidateSnapshots(id, r);
      ConservesSame(w0, w, id);
      if !fine || !guard {
        return Refused;
      }
      var token := Tick();
      ConservesSame(w0, w, id);
      if !token.yes || w.head != r.head {
        return Refused;
      }
      w := w.(plans := w.plans[id := Stored(WithStatus(r, Applying))]);
      ghost var marked := w;
      OkStays(w0, w);
      ConservesSame(w0, w, id);
      AllCurrentMoves(w0, w, id, r);
      ReviewedSame(w0, w, outside(|r.snapshots| + 4).repo, rules, id, r);
      var commit := Publish(id, r, guard);
      ConservesTrans(w0, marked, w, id);
      ghost var published := w;
      if commit == None {
        StatusIs(r, Partial);
        w := w.(plans := w.plans[id := Stored(WithStatus(r, Partial))]);
        OkStays(published, w);
        ConservesPlan(w0, published, w, id);
        return Stopped;
      }
      var done := r.(status := Complete, commit := commit);
      w := w.(plans := w.plans[id := Stored(done)]);
      OkStays(published, w);
      ConservesPlan(w0, published, w, id);
      NowArchived(published, w, id, r, done);
      if r.head.Some? {
        Parent(w, r.head.value, commit.value);
      }
      return Done;
    }

    /** Preview, apply and readiness, one after another. When the apply completes, a chosen file is pending exactly when
        an original of this plan was lost in between and no other receipt has a copy; none is lost while the private
        files are left alone, whatever happens to the rest. */
    method ArchiveAndCheck(id: string, project: string, chosen: seq<string>, writerStopped: bool, guard: bool,
        captureFine: bool)
      returns (o: Option<Outcome>, answer: Option<Readiness>)
      requires WorldOk(w) && id !in w.plans && clock == 0
      modifies this`clock, this`w
      ensures WorldOk(w)
      ensures o.Some? <==> 1 <= |chosen| <= MAX_FILES && forall f <- chosen :: Takeable(rules, old(w.sources), f)
      ensures answer.Some? <==> Inspectable(w) && captureFine
      ensures o == Some(Done) ==>
                && id in w.plans && w.plans[id].Stored? && w.plans[id].record.project == project
                && (PrivateAlone(outside) ==> OriginalsKept(w, id, w.plans[id].record))
                && forall f <- chosen :: f in w.sources && w.sources[f] == old(w.sources)[f] && w.sources[f].Regular?
      ensures o == Some(Done) && answer.Some? ==> forall f <- chosen ::
                f in answer.value.pending <==>
                !OriginalsKept(w, id, w.plans[id].record) && !CoveredElsewhere(w, id, project, f, w.sources[f].bytes)
    {
      hide *;
      o := None;
      ghost var start := w;
      var r := PreviewArchive(id, project, chosen);
      OkStays(start, w);
      ghost var previewed := w;
      if r.Some? {
        var end := ApplyArchive(id, writerStopped, guard);
        o := Some(end);
      }
      answer := Ready(w, project, true, captureFine);
      if o == Some(Done) {
        ghost var record := w.plans[id].record;
        forall n | 0 <= n < |chosen|
          ensures chosen[n] in w.sources && chosen[n] in start.sources
          ensures w.sources[chosen[n]] == start.sources[chosen[n]] && w.sources[chosen[n]].Regular?
          ensures CurrentCovered(w, project, chosen[n]) <==>
                  OriginalsKept(w, id, record) || CoveredElsewhere(w, id, project, chosen[n], w.sources[chosen[n]].bytes)
        {
          ChosenIsArchived(previewed, w, id, record, n, chosen[n]);
        }
        if PrivateAlone(outside) {
          KeptWhenAlone(rules, previewed, w, id, record, chosen);
        }
      }
    }
  }

  lemma ChosenIsArchived(previewed: World, w: World, id: string, r: Record, n: nat, file: string)
    requires WorldOk(w) && id in w.plans && w.plans[id] == Stored(r) && r.kind == "artifact_archive" && Archived(w, id, r)
    requires n < |r.snapshots| && Chosen(previewed, id, n, r.snapshots[n], file)
    ensures file in w.sources && file in previewed.sources && w.sources[file] == previewed.sources[file] && w.sources[file].Regular?
    ensures CurrentCovered(w, r.project, file) <==>
              OriginalsKept(w, id, r) || CoveredElsewhere(w, id, r.project, file, w.sources[file].bytes)
  {
    var s := r.snapshots[n];
    assert s in r.snapshots && SnapshotCurrent(w, id, s);
    ArchivedIsCovered(w, id, s);
    hide CurrentCovered, OriginalsKept, CoveredElsewhere, Archived, Private;
  }

  lemma KeptWhenAlone(rules: Rules, previewed: World, w: World, id: string, r: Record, chosen: seq<string>)
    requires w.kept == previewed.kept && |r.snapshots| == |chosen|
    requires forall n :: 0 <= n < |chosen| ==>
              Chosen(previewed, id, n, r.snapshots[n], chosen[n]) && Takeable(rules, previewed.sources, chosen[n])
    ensures OriginalsKept(w, id, r)
  {
    forall s | s in r.snapshots
      ensures OriginalKept(w, id, s)
    {
      var n :| 0 <= n < |r.snapshots| && r.snapshots[n] == s;
      assert Chosen(previewed, id, n, s, chosen[n]) && Takeable(rules, previewed.sources, chosen[n]);
    }
  }

  lemma AppliesIs(w: World, outside: nat -> Moment, rules: Rules, id: string)
    requires WorldOk(w)
    ensures Applies(w, outside, rules, id) ==>
      && id in w.plans && w.plans[id].Stored?
      && var r := w.plans[id].record;
      && r.kind == "artifact_archive" && r.status == Prepared && w.head == r.head && AllCurrent(w, id, r)
      && Compatible(rules, r.project, w.checkout)
      && CommitsReviewed(w, outside(|r.snapshots| + 4).repo, rules, id, r)
  {
    hide AllCurrent, Compatible, CommitsReviewed;
  }

  lemma StatusIs(r: Record, status: PlanStatus)
    ensures WithStatus(r, status) == r.(status := status)
  {
  }

  lemma CompatibleAt(rules: Rules, project: string, checkout: Tree, p: ArchivePath)
    ensures Compatible(rules, project, checkout) && OwnPath(project, p) && p in checkout ==>
              checkout[p] == ValueAt(rules, p)
    ensures p == Attributes(project) ==> OwnPath(project, p) && ValueAt(rules, p) == rules.attributes
    ensures p.Metadata? && p.project == project ==>
              OwnPath(project, p) && ValueAt(rules, p) == rules.metadata(p.plan, p.index)
  {
  }

  lemma CompatibleMore(rules: Rules, project: string, checkout: Tree, p: ArchivePath, data: Bytes)
    ensures Compatible(rules, project, checkout) && data == ValueAt(rules, p) ==>
              Compatible(rules, project, checkout[p := data])
  {
  }

  lemma PathValues(rules: Rules, id: string, r: Record, s: Snapshot, n: nat)
    ensures OwnPath(r.project, ContentOf(r.project, s)) && ValueAt(rules, ContentOf(r.project, s)) == s.desired
    ensures OwnPath(r.project, Metadata(r.project, id, n)) && ValueAt(rules, Metadata(r.project, id, n)) == rules.metadata(id, n)
  {
  }

  lemma CurrentAt(w0: World, w: World, id: string, r: Record, n: nat)
    requires n < |r.snapshots|
    ensures AllCurrent(w0, id, r) && w.kept == w0.kept ==>
              Private(w, id, r.snapshots[n].payload, false) == Some(r.snapshots[n].desired)
  {
    if AllCurrent(w0, id, r) && w.kept == w0.kept {
      assert SnapshotCurrent(w0, id, r.snapshots[n]);
    }
  }

  lemma ExpectedStart(rules: Rules, id: string, r: Record)
    ensures ExpectedTo(rules, id, r, 0) == map[Attributes(r.project) := rules.attributes]
  {
  }

  lemma ExpectedNext(rules: Rules, id: string, r: Record, n: nat)
    requires n < |r.snapshots|
    ensures var s := r.snapshots[n];
      ExpectedTo(rules, id, r, n + 1) ==
      ExpectedTo(rules, id, r, n)[ContentOf(r.project, s) := s.desired][Metadata(r.project, id, n) := rules.metadata(id, n)]
  {
  }

  /** Steps that only add to the checkout and to the commits conserve everything else. */
  lemma ConservesSame(w: World, v: World, id: string)
    requires WorldOk(w) && WorldOk(v)
    requires w.dag <= v.dag && w.trees <= v.trees
    requires forall other <- w.plans :: other != id ==> other in v.plans && v.plans[other] == w.plans[other]
    requires forall p :: p in w.checkout ==> p in v.checkout && v.checkout[p] == w.checkout[p]
    ensures Conserves(w, v, id)
  {
  }

  lemma ConservesTrans(w: World, v: World, u: World, id: string)
    requires WorldOk(w) && WorldOk(v) && WorldOk(u) && Conserves(w, v, id) && Conserves(v, u, id)
    ensures Conserves(w, u, id)
  {
  }

  lemma ConservesPlan(w: World, v: World, u: World, id: string)
    requires WorldOk(w) && WorldOk(v) && WorldOk(u) && Conserves(w, v, id)
    requires u == v.(plans := u.plans) && forall other <- v.plans :: other != id ==>
              other in u.plans && u.plans[other] == v.plans[other]
    ensures Conserves(w, u, id)
  {
  }

  lemma AllCurrentMoves(w: World, v: World, id: string, r: Record)
    ensures v.sources == w.sources && v.kept == w.kept ==> (AllCurrent(w, id, r) <==> AllCurrent(v, id, r))
  {
    if v.sources == w.sources && v.kept == w.kept {
      assert forall s: Snapshot :: SnapshotCurrent(w, id, s) <==> SnapshotCurrent(v, id, s);
    }
  }

  lemma RepoIs(w: World, repo: Repo)
    ensures WithRepo(w, repo) == w.(dag := repo.dag, trees := repo.trees, head := repo.head)
  {
  }

  lemma ReviewedSame(w: World, v: World, repo: Repo, rules: Rules, id: string, r: Record)
    requires v.dag == w.dag && v.trees == w.trees
    ensures CommitsReviewed(w, repo, rules, id, r) ==>
      && CommitsReviewed(v, repo, rules, id, r) && RepoGrows(v, repo) && repo.head.Some?
      && CommitExact(WithRepo(v, repo), r.head, repo.head.value, ExpectedTo(rules, id, r, |r.snapshots|))
  {
    hide CommitExact, ExpectedTo;
    if CommitsReviewed(w, repo, rules, id, r) {
      CommitExactSame(WithRepo(w, repo), WithRepo(v, repo), r.head, repo.head.value, ExpectedTo(rules, id, r, |r.snapshots|));
    }
  }

  lemma Reviewed(w: World, parent: Option<nat>, commit: nat, rules: Rules, id: string, r: Record)
    requires WorldOk(w) && CommitExact(w, parent, commit, ExpectedTo(rules, id, r, |r.snapshots|))
    ensures commit < |w.dag| && commit < |w.trees|
    ensures forall s <- r.snapshots :: Blob(w, commit, ContentOf(r.project, s)) == Some(s.desired)
    ensures parent.Some? ==> w.dag[commit] == {parent.value}
    ensures forall p :: Differs(TreeAt(w, parent), w.trees[commit], p) ==> OwnPath(r.project, p)
  {
    ExpectedIs(rules, id, r, |r.snapshots|);
    hide ExpectedTo, OwnPath, WorldOk;
    forall s | s in r.snapshots
      ensures Blob(w, commit, ContentOf(r.project, s)) == Some(s.desired)
    {
      var j :| 0 <= j < |r.snapshots| && r.snapshots[j] == s;
      assert ContentOf(r.project, r.snapshots[j]) in ExpectedTo(rules, id, r, |r.snapshots|);
      PathValues(rules, id, r, s, j);
    }
  }

  lemma BlobSame(w: World, v: World, r: Record)
    requires v.dag == w.dag && v.trees == w.trees
    ensures forall c: nat, s: Snapshot :: Blob(v, c, ContentOf(r.project, s)) == Blob(w, c, ContentOf(r.project, s))
    ensures forall c: Option<nat> :: TreeAt(v, c) == TreeAt(w, c)
  {
  }

  lemma NowArchived(w: World, v: World, id: string, r: Record, done: Record)
    requires WorldOk(w) && WorldOk(v) && v == w.(plans := v.plans) && AllCurrent(w, id, r)
    requires r.status == Prepared && done == r.(status := Complete, commit := w.head) && w.head.Some?
    requires forall s <- r.snapshots :: Blob(w, w.head.value, ContentOf(r.project, s)) == Some(s.desired)
    ensures Archived(v, id, done)
    ensures forall c: Option<nat> :: TreeAt(v, c) == TreeAt(w, c)
  {
    AllCurrentSame(w, v, id, r, done);
  }

  lemma AllCurrentSame(w: World, v: World, id: string, r: Record, done: Record)
    requires AllCurrent(w, id, r) && done.snapshots == r.snapshots && v.sources == w.sources && v.kept == w.kept
    ensures AllCurrent(v, id, done)
  {
    forall s | s in done.snapshots ensures SnapshotCurrent(v, id, s) { assert SnapshotCurrent(w, id, s); }
  }

  lemma Parent(w: World, parent: nat, commit: nat)
    requires WorldOk(w) && commit < |w.dag| && w.dag[commit] == {parent}
    ensures Sync.IsAncestor(w.dag, parent, commit)
  {
    assert parent in w.dag[commit];
    Sync.SelfReach(w.dag, parent);
  }
}
