/**
 Co-commit finalization (internal/artifact/co_commit.go): one authorized attempt, run
 through a canonical helper that keeps its own journal.

 The helper, the writer guard, Git and other users of the store may answer or change
 anything at any moment; the history of a run is the list of its events.
 */
module CoCommit {
  import opened Options
  import opened IntentStore

  /** What the helper reports about its run, after the checks `inspect` makes. */
  datatype Observation = Observation(
    helperRevision: string, runId: string, requestPath: string, requestId: string, requestRevision: string,
    journal: string, state: string, worktree: string, gitDir: string, headRef: string, headOid: string,
    inputTree: string, provider: string, session: string, specStory: string, planPolicy: string, planPath: string,
    messageDigest: string, composedDigest: string, normalizedDigest: string, preparedTree: string, commitOid: string,
    childExit: Option<int>, childSignal: Option<int>, quiescent: Option<bool>, sync: string, freshness: string,
    receipt: string, automatic: Option<bool>, proven: bool)

  /** A commit object as read back: headers, message lines, and the digest of the stripped message. */
  datatype Commit = Commit(whole: bool, trees: seq<string>, parents: seq<string>, lines: seq<string>, normalized: Option<string>)

  /** What Git answers at one moment. */
  datatype Git = Git(
    gitDir: Option<string>, policy: Option<string>, head: Option<string>, ref: Option<string>,
    indexIs: string -> bool, commitAt: string -> Option<Commit>)

  /** The path arithmetic and the object digest, fixed for a run. */
  datatype Host = Host(
    relative: (string, string) -> Option<string>, requestPath: (string, string) -> string, oidOf: Commit -> string)

  // ---------------------------------------------------------------- the checks

  predicate KnownState(state: string) {
    state in ["running", "pending", "child_exited", "syncing", "synced", "prepared", "review_required",
              "rotation_required", "committing", "done", "failed"]
  }

  predicate InspectOk(intent: Intent, o: Observation) {
    && intent.binding.Some? && o.helperRevision == intent.binding.value.helperRevision
    && IsDigest(o.journal) && IsRequestId(o.runId) && KnownState(o.state)
    && o.sync in ["not_started", "pending", "proven", "failed"]
    && o.freshness in ["unproven", "proven", "stale"]
    && o.worktree == intent.worktree
  }

  /** The wrapped child ended well and its history is proven synced and fresh. */
  predicate PostWriter(o: Observation) {
    && o.childExit == Some(0) && o.childSignal == None && o.quiescent == Some(true)
    && o.sync == "proven" && o.freshness == "proven"
  }

  predicate PlanMatches(host: Host, intent: Intent, o: Observation)
    requires intent.binding.Some?
  {
    if intent.binding.value.planPolicy == "path" then
      |intent.plans| == 1 && host.relative(intent.worktree, intent.plans[0]) == Some(o.planPath)
    else intent.plans == [] && o.planPath == ""
  }

  predicate BindingMatches(host: Host, intent: Intent, o: Observation) {
    && intent.destination == "co-commit" && intent.binding.Some? && intent.binding.value.Valid()
    && var b := intent.binding.value;
       && o.helperRevision == b.helperRevision && o.requestId == b.requestId && o.requestPath == b.requestPath
       && o.requestRevision == b.requestRevision && o.worktree == intent.worktree
       && o.headRef == "refs/heads/" + intent.branch && o.headOid == intent.head && o.inputTree == b.inputTree
       && o.provider == intent.provider && o.session == intent.session && o.messageDigest == b.messageDigest
       && o.planPolicy == b.planPolicy
       && host.relative(intent.worktree, intent.specStory) == Some(o.specStory)
       && PlanMatches(host, intent, o)
  }

  predicate LocationOk(host: Host, o: Observation, root: string, gitDir: string) {
    && o.worktree == root && o.gitDir == gitDir && o.requestId == o.runId && IsRequestId(o.requestId)
    && o.requestPath == host.requestPath(gitDir, o.requestId)
    && IsDigest(o.requestRevision) && IsDigest(o.messageDigest) && IsOid(o.headOid) && IsOid(o.inputTree)
    && "refs/heads/" <= o.headRef && forall c <- o.headRef :: c != '\0' && c != '\r' && c != '\n'
  }

  function LowerAscii(s: string): string {
    if s == [] then []
    else [if 'A' <= s[0] <= 'Z' then (s[0] as int + 32) as char else s[0]] + LowerAscii(s[1..])
  }

  const TRAILER: string := "agent-history-request:"

  predicate IsTrailer(line: string) { TRAILER <= LowerAscii(line) }

  function Trailers(lines: seq<string>): seq<string> {
    if lines == [] then [] else (if IsTrailer(lines[0]) then [lines[0]] else []) + Trailers(lines[1..])
  }

  /** The one commit this request stands for: its parent, its tree, its one trailer and its message. */
  predicate CommitOf(host: Host, intent: Intent, o: Observation, c: Commit) {
    && host.oidOf(c) == o.commitOid && c.whole
    && c.trees == [o.preparedTree] && c.parents == [intent.head]
    && intent.binding.Some? && Trailers(c.lines) == ["Agent-History-Request: " + intent.binding.value.requestId]
    && c.normalized == Some(o.normalizedDigest)
  }

  predicate ProvenDone(o: Observation) {
    o.proven && o.state == "done" && PostWriter(o) && IsOid(o.commitOid) && IsOid(o.preparedTree)
  }

  predicate Verified(host: Host, intent: Intent, o: Observation, git: Git, requireHead: bool) {
    && ProvenDone(o) && (requireHead ==> git.head == Some(o.commitOid))
    && git.commitAt(o.commitOid).Some? && CommitOf(host, intent, o, git.commitAt(o.commitOid).value)
    && IsDigest(o.composedDigest) && IsDigest(o.normalizedDigest)
  }

  /** The checkout still is what was queued: same head, branch and index. */
  predicate CheckoutKept(intent: Intent, o: Observation, git: Git) {
    && git.head == Some(intent.head) && git.ref == Some("refs/heads/" + intent.branch)
    && (o.preparedTree == "" || IsOid(o.preparedTree))
    && git.indexIs(if o.preparedTree != "" then o.preparedTree else o.inputTree)
  }

  predicate CurrentRequest(host: Host, intent: Intent, o: Observation, git: Git) {
    && BindingMatches(host, intent, o) && git.gitDir.Some? && LocationOk(host, o, intent.worktree, git.gitDir.value)
    && if o.proven then Verified(host, intent, o, git, true)
       else
         && git.policy == Some(intent.binding.value.policyToken)
         && (o.state == "committing" || CheckoutKept(intent, o, git))
  }

  // ---------------------------------------------------------------- histories

  datatype Call = PrepareOnly | ReconcileOnly | CommitCapable

  datatype Event =
    | Opened(intent: Intent)
    | Saw(seen: Option<Observation>)
    | Matched(git: Git)
    | Guarded
    | Rechecked(stored: Intent)
    | Called(call: Call, journal: string, fine: bool)
    | Proved(o: Observation, commit: Commit)
    | Stored(before: Intent, after: Intent)

  type History = seq<Event>

  ghost predicate NoCalls(h: History) { forall e <- h :: !e.Called? }

  ghost predicate NoCommitCall(h: History) { forall e <- h :: !(e.Called? && e.call == CommitCapable) }

  predicate FinalizingOf(before: Intent, after: Intent) {
    after == before.(status := Finalizing, failure := "", updated := after.updated)
  }

  predicate FinalizedBy(before: Intent, after: Intent, o: Observation) {
    && before.binding.Some?
    && after == before.(status := Finalized, artifactCommit := o.commitOid, transcript := before.specStory, failure := "",
                        binding := Some(before.binding.value.(preparedTree := o.preparedTree, receiptRevision := o.receipt)),
                        updated := after.updated)
  }

  /**
   When a commit-capable call may be made. Reading back from it: the checkout was matched,
   the store still held the intent this run had marked finalizing, the guard had passed again
   and the checkout had matched, all for a journal that a prepare-only call had just
   left prepared; and no commit-capable call had been made.
   */
  ghost predicate ReadyToCommit(host: Host, h: History, journal: string) {
    var n := |h|;
    && 8 < n && NoCommitCall(h) && h[0].Opened?
    && var intent := h[0].intent;
    && h[n - 1].Matched? && h[n - 2].Rechecked? && h[n - 3].Guarded? && h[n - 4].Matched?
    && h[n - 5].Saw? && h[n - 5].seen.Some?
    && var o := h[n - 5].seen.value;
    && o.state == "prepared" && PostWriter(o) && !o.proven && o.journal == journal
    && CurrentRequest(host, intent, o, h[n - 1].git) && CurrentRequest(host, intent, o, h[n - 4].git)
    && h[n - 6].Called? && h[n - 6].call == PrepareOnly && h[n - 6].fine
    && h[n - 7].Stored? && h[n - 7].before == intent && FinalizingOf(intent, h[n - 7].after)
    && h[n - 2].stored == h[n - 7].after
    && h[n - 8].Guarded?
  }

  /** The last event but one is the latest inspection, and shows a journal in (or not in) the middle of a commit. */
  ghost predicate ReadyToAsk(host: Host, h: History, journal: string, committing: bool) {
    && NoCalls(h) && 3 < |h| && h[0].Opened?
    && var intent := h[0].intent;
    && h[1].Saw? && h[1].seen.Some?
    && var o := h[1].seen.value;
    && o.journal == journal && PostWriter(o) && !o.proven && (o.state == "committing") == committing
    && o.automatic == Some(false) && intent.status != Finalized
    && h[2].Matched? && CurrentRequest(host, intent, o, h[2].git)
    && h[|h| - 1].Stored? && h[|h| - 1].before == intent && FinalizingOf(intent, h[|h| - 1].after)
    && (!committing ==> h[|h| - 2].Guarded?)
  }

  /** The finalized write: the event before it is the proof of this very commit. */
  ghost predicate MayFinalize(host: Host, h: History, before: Intent, after: Intent)
    requires h != [] && h[0].Opened?
  {
    var last := h[|h| - 1];
    && last.Proved? && FinalizedBy(before, after, last.o) && ProvenDone(last.o)
    && CommitOf(host, h[0].intent, last.o, last.commit)
    && (before == h[0].intent || FinalizingOf(h[0].intent, before))
  }

  ghost predicate MayStore(host: Host, h: History, before: Intent, after: Intent) {
    && h != [] && h[0].Opened?
    && ((after.status == Finalizing && before == h[0].intent && NoCalls(h) && FinalizingOf(before, after))
        || MayFinalize(host, h, before, after))
  }

  /** What a run may do next, after history `h`. */
  ghost predicate Allowed(host: Host, h: History, e: Event) {
    match e
    case Opened(_) => h == []
    case Saw(_) => |h| == 1 || (h != [] && h[|h| - 1].Called?)
    case Called(PrepareOnly, journal, _) => ReadyToAsk(host, h, journal, false)
    case Called(ReconcileOnly, journal, _) => ReadyToAsk(host, h, journal, true)
    case Called(CommitCapable, journal, _) => ReadyToCommit(host, h, journal)
    case Stored(before, after) => MayStore(host, h, before, after)
    case _ => h != []
  }

  ghost predicate Safe(host: Host, h: History) {
    forall i :: 0 <= i < |h| ==> Allowed(host, h[..i], h[i])
  }

  lemma More(host: Host, h: History, e: Event)
    requires Safe(host, h) && Allowed(host, h, e)
    ensures Safe(host, h + [e])
  {
    hide Allowed;
    var all := h + [e];
    forall i | 0 <= i < |all|
      ensures Allowed(host, all[..i], all[i])
    {
      if i < |h| {
        assert all[..i] == h[..i];
      } else {
        assert all[..i] == h;
      }
    }
  }

  /** A run cut short at any point has a safe history too. */
  lemma CutShort(host: Host, h: History, n: nat)
    requires Safe(host, h) && n <= |h|
    ensures Safe(host, h[..n])
  {
    hide Allowed;
    forall i | 0 <= i < n
      ensures Allowed(host, h[..n][..i], h[..n][i])
    {
      assert h[..n][..i] == h[..i];
    }
  }

  lemma NothingBefore(h: History, i: nat)
    requires i <= |h|
    ensures NoCommitCall(h[..i]) ==> forall k :: 0 <= k < i ==> !(h[k].Called? && h[k].call == CommitCapable)
    ensures NoCalls(h[..i]) ==> forall k :: 0 <= k < i ==> !h[k].Called?
  {
    assert forall k :: 0 <= k < i ==> h[..i][k] == h[k];
  }

  /** At most one commit-capable call, ever. */
  lemma CommitOnce(host: Host, h: History, i: nat, j: nat)
    requires Safe(host, h) && i < |h| && j < |h|
    requires h[i].Called? && h[i].call == CommitCapable && h[j].Called? && h[j].call == CommitCapable
    ensures i == j
  {
    hide CurrentRequest, PostWriter, FinalizingOf;
    assert Allowed(host, h[..i], h[i]) && Allowed(host, h[..j], h[j]);
    NothingBefore(h, i);
    NothingBefore(h, j);
  }

  /** Before the commit-capable call, the journal was left prepared by a call that could not commit. */
  lemma CommitWasPrepared(host: Host, h: History, i: nat)
    requires Safe(host, h) && i < |h| && h[i].Called? && h[i].call == CommitCapable
    ensures 8 < i && h[i - 6].Called? && h[i - 6].call == PrepareOnly && h[i - 6].fine
    ensures h[i - 5].Saw? && h[i - 5].seen.Some? && h[i - 5].seen.value.state == "prepared"
    ensures h[i - 5].seen.value.journal == h[i].journal
    ensures h[i - 3].Guarded? && h[i - 2].Rechecked? && h[0].Opened?
    ensures h[i - 2].stored.status == Finalizing && h[i - 2].stored.binding == h[0].intent.binding
    ensures h[i - 1].Matched? && CheckoutKept(h[0].intent, h[i - 5].seen.value, h[i - 1].git)
  {
    hide BindingMatches, LocationOk, CheckoutKept, Verified, PostWriter, NoCommitCall;
    assert Allowed(host, h[..i], h[i]);
    assert forall k :: 0 <= k < i ==> h[..i][k] == h[k];
  }

  lemma PrepareIsFirst(host: Host, h: History, i: nat, call: Call)
    requires Safe(host, h) && i < |h| && h[i].Called? && h[i].call == call && call != CommitCapable
    ensures 1 < i && h[1].Saw? && h[1].seen.Some? && (h[1].seen.value.state == "committing" <==> call == ReconcileOnly)
    ensures forall j :: 0 <= j < i ==> !h[j].Called?
  {
    hide CurrentRequest, PostWriter, FinalizingOf;
    assert Allowed(host, h[..i], h[i]);
    assert h[..i][1] == h[1];
    NothingBefore(h, i);
  }

  /** A journal first seen in the middle of a commit is only ever reconciled, and only once. */
  lemma CommittingIsReconciled(host: Host, h: History, i: nat)
    requires Safe(host, h) && 1 < |h| && h[1].Saw? && h[1].seen.Some? && h[1].seen.value.state == "committing"
    requires i < |h| && h[i].Called?
    ensures h[i].call == ReconcileOnly
    ensures forall j :: 0 <= j < i ==> !h[j].Called?
  {
    hide Allowed, Safe;
    if h[i].call == CommitCapable {
      CommitWasPrepared(host, h, i);
      PrepareIsFirst(host, h, i - 6, PrepareOnly);
    } else {
      PrepareIsFirst(host, h, i, h[i].call);
    }
  }

  /** An intent is stored as finalized only over a commit that was read back and is the request's own. */
  lemma FinalizedIsProven(host: Host, h: History, i: nat)
    requires Safe(host, h) && i < |h| && h[i].Stored? && h[i].after.status == Finalized
    ensures h[0].Opened? && 0 < i && h[i - 1].Proved?
    ensures host.oidOf(h[i - 1].commit) == h[i].after.artifactCommit
    ensures h[i - 1].commit.parents == [h[0].intent.head]
    ensures h[0].intent.binding.Some? && h[i].after.binding.Some?
    ensures h[i - 1].commit.trees == [h[i].after.binding.value.preparedTree]
    ensures Trailers(h[i - 1].commit.lines) == ["Agent-History-Request: " + h[0].intent.binding.value.requestId]
  {
    assert Allowed(host, h[..i], h[i]);
    assert h[..i][0] == h[0] && h[..i][i - 1] == h[i - 1];
  }

  // ---------------------------------------------------------------- the operation

  datatype Request = Request(id: string, revision: Revision, allowed: bool, reviewPathOk: bool, guarded: bool)

  datatype Result =
    | Stopped(code: string)
    | OutcomeUnproven
    | NotRecorded
    | Committed(intent: Intent, revision: Revision)

  /**
   What the outside does around one step: another user's write to the store, what the
   helper would report, what Git would answer, and whether a guard, tool or call agrees.
   */
  datatype Moment = Moment(files: Option<Files>, seen: Option<Observation>, git: Git, yes: bool)

  /** The outside at each step of a run. */
  type World = nat -> Moment

  /** Nobody else writes, and nothing refuses. */
  ghost predicate Undisturbed(world: World) {
    forall n: nat :: world(n).files == None && world(n).yes
  }

  function Seen(world: World, intent: Intent, n: nat): Option<Observation> {
    var seen := world(n).seen;
    if seen.Some? && InspectOk(intent, seen.value) then seen else None
  }

  predicate ReceiptFits(o: Observation) { o.receipt == "" || IsDigest(o.receipt) }

  /** The helper's report number `n` proves the commit, and Git confirms it at step `n + 1`. */
  predicate ProofAt(host: Host, world: World, intent: Intent, n: nat, requireHead: bool) {
    var o := Seen(world, intent, n);
    && o.Some? && o.value.proven && BindingMatches(host, intent, o.value) && ReceiptFits(o.value)
    && Verified(host, intent, o.value, world(n + 1).git, requireHead)
  }

  /** The first look, at step 2, is at a current request whose writer is done. */
  predicate FirstLook(host: Host, world: World, intent: Intent) {
    var o := Seen(world, intent, 2);
    && o.Some? && CurrentRequest(host, intent, o.value, world(3).git) && PostWriter(o.value)
  }

  /** A journal that may be worked on: no commit yet, made by hand, and not recorded as final. */
  predicate OpenJournal(intent: Intent, o: Observation) {
    !o.proven && o.automatic == Some(false) && intent.status != Finalized
  }

  /** Step 7 shows a prepared journal, matched at steps 8 and 11, and step 13 the commit. */
  predicate PreparedThenCommitted(host: Host, world: World, intent: Intent) {
    var o := Seen(world, intent, 7);
    && o.Some? && BindingMatches(host, intent, o.value) && !o.value.proven
    && o.value.state == "prepared" && PostWriter(o.value)
    && CurrentRequest(host, intent, o.value, world(8).git) && CurrentRequest(host, intent, o.value, world(11).git)
    && ProofAt(host, world, intent, 13, true)
  }

  /** The ways in which an undisturbed attempt succeeds. */
  predicate Succeeds(host: Host, world: World, intent: Intent, guarded: bool) {
    && FirstLook(host, world, intent)
    && var o := Seen(world, intent, 2).value;
    if o.proven then ReceiptFits(o) && Verified(host, intent, o, world(4).git, intent.status != Finalized)
    else
      && OpenJournal(intent, o)
      && if o.state == "committing" then ProofAt(host, world, intent, 6, true)
         else guarded && (ProofAt(host, world, intent, 7, true) || PreparedThenCommitted(host, world, intent))
  }

  /** The finalized intent: the commit and its receipt are recorded, nothing else of the binding changes. */
  function Recorded(o: Observation, candidate: Intent): Option<Intent> {
    if candidate.binding.None? then None
    else Some(candidate.(status := Finalized, artifactCommit := o.commitOid, transcript := candidate.specStory, failure := "",
                         binding := Some(candidate.binding.value.(preparedTree := o.preparedTree, receiptRevision := o.receipt))))
  }

  lemma RecordOutcome(files: Files, id: string, current: Intent, o: Observation, change: Intent -> Option<Intent>,
      now: int)
    requires forall candidate: Intent :: change(candidate) == Recorded(o, candidate)
    ensures var (after, r) := AfterUpdate(files, id, Of(id, current), change, now);
      && (r.Updated? ==>
            && FinalizedBy(current, r.intent, o) && r.intent.status == Finalized && r.intent.artifactCommit == o.commitOid
            && GetRecord(after, id) == Found(r.intent, Of(id, r.intent)))
      && (GetRecord(files, id) == Found(current, Of(id, current)) && current.binding.Some?
          ==> ReceiptFits(o) && ProvenDone(o) ==> r.Updated?)
  {
    UpdateIsOverReviewed(files, id, Of(id, current), change, now);
    assert change(current) == Recorded(o, current);
    hide IsOid, IsDigest, PostWriter, IsRequestId, IsId;
  }

  lemma MayRecord(host: Host, h: History, current: Intent, after: Intent)
    requires h != [] && h[0].Opened? && h[|h| - 1].Proved? && ProvenDone(h[|h| - 1].o)
    requires CommitOf(host, h[0].intent, h[|h| - 1].o, h[|h| - 1].commit)
    requires current == h[0].intent || FinalizingOf(h[0].intent, current)
    requires FinalizedBy(current, after, h[|h| - 1].o)
    ensures Allowed(host, h, Stored(current, after))
  {
    hide CommitOf, ProvenDone, FinalizedBy, FinalizingOf;
  }

  class Finalizer {
    const host: Host
    const store: Store
    const world: World
    var clock: nat
    ghost var history: History

    constructor (host: Host, store: Store, world: World)
      ensures this.host == host && this.store == store && this.world == world && clock == 0 && history == []
    {
      this.host := host;
      this.store := store;
      this.world := world;
      clock := 0;
      history := [];
    }

    /** One step of time: another user of the store may have written anything. */
    method Tick() returns (now: Moment)
      modifies this`clock, store
      ensures clock == old(clock) + 1 && now == world(old(clock))
      ensures store.files == if now.files.Some? then now.files.value else old(store.files)
      ensures Undisturbed(world) ==> now.yes && store.files == old(store.files)
    {
      now := world(clock);
      clock := clock + 1;
      if now.files.Some? {
        store.files := now.files.value;
      }
    }

    method Inspect(intent: Intent) returns (o: Option<Observation>)
      requires Safe(host, history) && Allowed(host, history, Saw(None))
      modifies this, store
      ensures clock == old(clock) + 1 && o == Seen(world, intent, old(clock))
      ensures Undisturbed(world) ==> store.files == old(store.files)
      ensures o.Some? ==> InspectOk(intent, o.value)
      ensures history == old(history) + [Saw(o)] && Safe(host, history)
    {
      hide Undisturbed, InspectOk;
      var now := Tick();
      o := now.seen;
      if o.Some? && !InspectOk(intent, o.value) {
        o := None;
      }
      More(host, history, Saw(o));
      history := history + [Saw(o)];
    }

    method Match(intent: Intent, o: Observation) returns (fine: bool)
      requires Safe(host, history) && history != []
      modifies this, store
      ensures Safe(host, history)
      ensures clock == old(clock) + 1 && (fine <==> CurrentRequest(host, intent, o, world(old(clock)).git))
      ensures Undisturbed(world) ==> store.files == old(store.files)
      ensures !fine ==> history == old(history)
      ensures fine ==> |history| == |old(history)| + 1 && history[..|old(history)|] == old(history)
      ensures fine ==> history[|old(history)|].Matched? && CurrentRequest(host, intent, o, history[|old(history)|].git)
    {
      hide CurrentRequest, Undisturbed;
      var now := Tick();
      fine := CurrentRequest(host, intent, o, now.git);
      if fine {
        More(host, history, Matched(now.git));
        history := history + [Matched(now.git)];
      }
    }

    method Guard() returns (fine: bool)
      requires Safe(host, history) && history != []
      modifies this, store
      ensures Safe(host, history)
      ensures clock == old(clock) + 1 && fine == world(old(clock)).yes
      ensures Undisturbed(world) ==> fine && store.files == old(store.files)
      ensures history == if fine then old(history) + [Guarded] else old(history)
    {
      hide Undisturbed;
      var now := Tick();
      fine := now.yes;
      if fine {
        More(host, history, Guarded);
        history := history + [Guarded];
      }
    }

    /** The marking update; it goes through only over the intent this run has read. */
    method Mark(id: string, current: Intent, now: int) returns (r: Outcome)
      requires Safe(host, history) && history != [] && history[0] == Opened(current) && NoCalls(history)
      modifies this, store
      ensures Safe(host, history) && clock == old(clock) + 1
      ensures r.Updated? ==> FinalizingOf(current, r.intent) && history == old(history) + [Stored(current, r.intent)]
      ensures r.Updated? ==> GetRecord(store.files, id) == Found(r.intent, Of(id, r.intent))
      ensures !r.Updated? ==> history == old(history)
      ensures Undisturbed(world) && GetRecord(old(store.files), id) == Found(current, Of(id, current)) ==> r.Updated?
    {
      hide Undisturbed;
      var _ := Tick();
      ghost var files := store.files;
      var change := (candidate: Intent) => Some(candidate.(status := Finalizing, failure := ""));
      r := store.UpdateIfRevision(id, Of(id, current), change, now);
      UpdateIsOverReviewed(files, id, Of(id, current), change, now);
      if r.Updated? {
        assert r.intent == Stamped(change(current).value, now);
        More(host, history, Stored(current, r.intent));
        history := history + [Stored(current, r.intent)];
      }
    }

    /** The finalized update, made right after its commit was verified. */
    method Record(id: string, current: Intent, o: Observation, now: int) returns (r: Outcome)
      requires Safe(host, history) && history != [] && history[0].Opened? && history[|history| - 1].Proved?
      requires history[|history| - 1].o == o && ProvenDone(o)
      requires CommitOf(host, history[0].intent, o, history[|history| - 1].commit)
      requires current == history[0].intent || FinalizingOf(history[0].intent, current)
      modifies this, store
      ensures Safe(host, history)
      ensures r.Updated? ==> r.intent.status == Finalized && r.intent.artifactCommit == o.commitOid
      ensures r.Updated? ==> history == old(history) + [Stored(current, r.intent)]
      ensures r.Updated? ==> GetRecord(store.files, id) == Found(r.intent, Of(id, r.intent))
      ensures !r.Updated? ==> history == old(history)
      ensures Undisturbed(world) && GetRecord(old(store.files), id) == Found(current, Of(id, current)) ==>
                current.binding.Some? && ReceiptFits(o) ==> r.Updated?
    {
      hide *;
      var _ := Tick();
      ghost var files := store.files;
      var change := (candidate: Intent) => Recorded(o, candidate);
      r := store.UpdateIfRevision(id, Of(id, current), change, now);
      RecordOutcome(files, id, current, o, change, now);
      if r.Updated? {
        MayRecord(host, history, current, r.intent);
        More(host, history, Stored(current, r.intent));
        history := history + [Stored(current, r.intent)];
      }
    }

    /** One helper call, then a fresh inspection; `out` is missing when the run must stop with `stop`. */
    method Invoke(intent: Intent, o: Observation, call: Call) returns (out: Option<Observation>, stop: Result)
      requires Safe(host, history) && Allowed(host, history, Called(call, o.journal, true))
      requires Allowed(host, history, Called(call, o.journal, false))
      modifies this, store
      ensures Safe(host, history) && clock == old(clock) + 2
      ensures !stop.Committed?
      ensures |history| == |old(history)| + 2 && history[..|old(history)|] == old(history)
      ensures history[|old(history)|].Called? && history[|old(history)|].call == call && history[|old(history)| + 1].Saw?
      ensures out.Some? ==> history[|old(history)| + 1].seen == out && BindingMatches(host, intent, out.value)
      ensures out.Some? ==> out.value.proven || history[|old(history)|].fine
      ensures out.Some? ==> out == Seen(world, intent, old(clock) + 1)
      ensures Undisturbed(world) ==> store.files == old(store.files)
      ensures Undisturbed(world) && Seen(world, intent, old(clock) + 1).Some?
                && BindingMatches(host, intent, Seen(world, intent, old(clock) + 1).value) ==>
                out == Seen(world, intent, old(clock) + 1)
    {
      hide BindingMatches, InspectOk, Undisturbed, Seen;
      var now := Tick();
      More(host, history, Called(call, o.journal, now.yes));
      history := history + [Called(call, o.journal, now.yes)];
      var seen := Inspect(intent);
      if seen == None {
        return None, OutcomeUnproven;
      }
      if !BindingMatches(host, intent, seen.value) {
        return None, Stopped("request_changed");
      }
      if !seen.value.proven && !now.yes {
        return None, Stopped("review_canonical_run_no_automatic_retry");
      }
      return seen, Stopped("");
    }

    /** The second guard, the second match and the single commit-capable call. */
    method CommitPrepared(intent: Intent, current: Intent, o: Observation, guarded: bool)
      returns (out: Option<Observation>, stop: Result)
      requires Safe(host, history) && 4 < |history| && history[0] == Opened(intent) && guarded
      requires NoCommitCall(history) && !o.proven
      requires var n := |history|;
        && history[n - 1] == Saw(Some(o)) && history[n - 2].Called? && history[n - 2].call == PrepareOnly && history[n - 2].fine
        && history[n - 3].Stored? && history[n - 3].before == intent && history[n - 3].after == current
        && FinalizingOf(intent, current) && history[n - 4].Guarded?
      modifies this, store
      ensures Safe(host, history) && history != [] && history[0] == Opened(intent)
      ensures !stop.Committed?
      ensures out.Some? ==> history[|history| - 1] == Saw(out) && clock == old(clock) + 6 && out == Seen(world, intent, old(clock) + 5)
      ensures Undisturbed(world) ==> store.files == old(store.files)
      ensures (&& Undisturbed(world) && GetRecord(old(store.files), intent.id) == Found(current, Of(intent.id, current))
               && o.state == "prepared" && PostWriter(o)
               && CurrentRequest(host, intent, o, world(old(clock)).git) && CurrentRequest(host, intent, o, world(old(clock) + 3).git)
               && Seen(world, intent, old(clock) + 5).Some? && BindingMatches(host, intent, Seen(world, intent, old(clock) + 5).value))
              ==> out.Some?
    {
      hide *;
      ghost var h0 := history;
      if o.state != "prepared" || !PostWriter(o) {
        return None, Stopped("preparation_unproven");
      }
      var fine := Match(intent, o);
      if !fine {
        return None, Stopped("request_changed");
      }
      ghost var h1 := history;
      fine := Guard();
      if !fine {
        return None, Stopped("writer_guard");
      }
      var _ := Tick();
      var latest := GetRecord(store.files, intent.id);
      if !latest.Found? || latest.revision != Of(intent.id, current) {
        return None, Stopped("stale_revision");
      }
      FoundIs(store.files, intent.id);
      AlwaysAllowed(host, history, Rechecked(latest.intent));
      More(host, history, Rechecked(latest.intent));
      history := history + [Rechecked(latest.intent)];
      ghost var h2 := history;
      fine := Match(intent, o);
      if !fine {
        return None, Stopped("request_changed");
      }
      ghost var g1, g2 := h1[|h0|].git, history[|h2|].git;
      assert h1 == h0 + [Matched(g1)];
      assert history == h0 + [Matched(g1), Guarded, Rechecked(current), Matched(g2)];
      NowReady(host, h0, intent, current, o, g1, g2);
      out, stop := Invoke(intent, o, CommitCapable);
    }

    /** The prepare-only call, and the rest when it did not already find a commit. */
    method PrepareThenCommit(intent: Intent, current: Intent, o: Observation, ghost git: Git)
      returns (out: Option<Observation>, stop: Result)
      requires Safe(host, history) && history == [Opened(intent), Saw(Some(o)), Matched(git), Guarded, Stored(intent, current)]
      requires Allowed(host, history, Called(PrepareOnly, o.journal, true)) && Allowed(host, history, Called(PrepareOnly, o.journal, false))
      requires FinalizingOf(intent, current) && clock == 6
      modifies this, store
      ensures Safe(host, history) && history != [] && history[0] == Opened(intent)
      ensures !stop.Committed?
      ensures out.Some? ==> history[|history| - 1] == Saw(out)
      ensures Undisturbed(world) ==> store.files == old(store.files)
      ensures out.Some? ==>
                (clock == 8 && out == Seen(world, intent, 7)) || (clock == 14 && out == Seen(world, intent, 13))
      ensures out.Some? && clock == 8 ==> out.value.proven
      ensures out.Some? && clock == 14 ==> !(Seen(world, intent, 7).Some? && Seen(world, intent, 7).value.proven)
      ensures (&& Undisturbed(world) && GetRecord(old(store.files), intent.id) == Found(current, Of(intent.id, current))
               && ProofStep(world, intent, o) != 6 && Onward(host, world, intent, o, true)) ==> out.Some?
    {
      hide *;
      OnwardIs(host, world, intent, o, true);
      ghost var h4 := history;
      out, stop := Invoke(intent, o, PrepareOnly);
      ghost var fine := history[|h4|].fine;
      assert history == h4 + [Called(PrepareOnly, history[|h4|].journal, fine), history[|h4| + 1]];
      assert h4 == history[..5];
      if out.Some? && !out.value.proven {
        FirstCall(intent, o, git, current, history);
        out, stop := CommitPrepared(intent, current, out.value, true);
      }
    }

    /** The branch for a journal that does not yet prove a commit. */
    method Attempt(intent: Intent, o: Observation, guarded: bool, now: int)
      returns (out: Option<Observation>, current: Intent, stop: Result)
      requires Safe(host, history) && history != [] && history[0] == Opened(intent) && |history| == 3 && clock == 4
      requires history[1] == Saw(Some(o)) && history[2].Matched? && CurrentRequest(host, intent, o, history[2].git)
      requires PostWriter(o) && !o.proven
      modifies this, store
      ensures Safe(host, history) && history != [] && history[0] == Opened(intent)
      ensures !stop.Committed?
      ensures out.Some? ==> FinalizingOf(intent, current) && history[|history| - 1] == Saw(out)
      ensures out.Some? && Undisturbed(world) ==>
                GetRecord(store.files, intent.id) == Found(current, Of(intent.id, current))
      ensures Undisturbed(world) && GetRecord(old(store.files), intent.id) == Found(intent, Of(intent.id, intent))
                && Onward(host, world, intent, o, guarded) ==>
                out.Some? && clock == ProofStep(world, intent, o) + 1 && out == Seen(world, intent, ProofStep(world, intent, o))
    {
      hide *;
      current := intent;
      ghost var git := history[2].git;
      OnwardIs(host, world, intent, o, guarded);
      if intent.status == Finalized || o.automatic != Some(false) {
        return None, current, Stopped("manual_wrapper_required");
      }
      var reconcile := o.state == "committing";
      if !reconcile {
        if !guarded {
          return None, current, Stopped("writer_guard_missing");
        }
        var fine := Guard();
        if !fine {
          return None, current, Stopped("writer_guard");
        }
      }
      ghost var h3 := history;
      assert h3 == [Opened(intent), Saw(Some(o)), Matched(git)] + if reconcile then [] else [Guarded];
      Uncalled(intent, o, git, !reconcile);
      var marked := Mark(intent.id, intent, now);
      if !marked.Updated? {
        return None, current, Stopped("stale_revision");
      }
      current := marked.intent;
      NowAsk(host, intent, current, o, git, reconcile);
      ghost var h4 := history;
      if reconcile {
        out, stop := Invoke(intent, o, ReconcileOnly);
      } else {
        out, stop := PrepareThenCommit(intent, current, o, git);
      }
      if out.Some? && !out.value.proven {
        return None, current, Stopped("commit_unproven");
      }
    }

    /** The last check of the commit object, and the finalized write. */
    method Close(id: string, intent: Intent, current: Intent, o: Observation, later: int) returns (r: Result)
      requires Safe(host, history) && history != [] && history[0] == Opened(intent)
      requires current == intent || FinalizingOf(intent, current)
      modifies this, store
      ensures Safe(host, history)
      ensures r.Committed? ==> GetRecord(store.files, id) == Found(r.intent, r.revision) && r.intent.status == Finalized
      ensures r.Committed? ==>
                1 < |history| && history[|history| - 1].Stored? && history[|history| - 1].after == r.intent
      ensures r.NotRecorded? ==> history != [] && history[|history| - 1].Proved?
      ensures (&& Undisturbed(world) && GetRecord(old(store.files), id) == Found(current, Of(id, current)) && current.binding.Some?
               && ReceiptFits(o) && Verified(host, intent, o, world(old(clock)).git, intent.status != Finalized)) ==> r.Committed?
    {
      hide *;
      var look := Tick();
      if !Verified(host, intent, o, look.git, intent.status != Finalized) {
        return Stopped("commit_unproven");
      }
      VerifiedIs(host, intent, o, look.git, intent.status != Finalized);
      var c := look.git.commitAt(o.commitOid).value;
      AlwaysAllowed(host, history, Proved(o, c));
      More(host, history, Proved(o, c));
      history := history + [Proved(o, c)];
      var recorded := Record(id, current, o, later);
      if !recorded.Updated? {
        return NotRecorded;
      }
      return Committed(recorded.intent, Of(id, recorded.intent));
    }

    /** One authorized attempt to finalize a co-commit intent. */
    method Finalize(request: Request, now: int, later: int) returns (r: Result)
      requires history == [] && clock == 0
      modifies this, store
      ensures Safe(host, history)
      ensures !request.allowed || !request.reviewPathOk ==>
                history == [] && r.Stopped? && store.files == old(store.files)
      ensures r.Committed? ==>
                GetRecord(store.files, request.id) == Found(r.intent, r.revision) && r.intent.status == Finalized
      ensures r.Committed? ==>
                1 < |history| && history[|history| - 1].Stored? && history[|history| - 1].after == r.intent
      ensures r.NotRecorded? ==> history != [] && history[|history| - 1].Proved?
      ensures (&& Undisturbed(world) && Asked(request, old(store.files))
               && Succeeds(host, world, GetRecord(old(store.files), request.id).intent, request.guarded))
              ==> r.Committed?
    {
      hide *;
      NothingYet(host);
      AskedIs(request, store.files);
      if !request.reviewPathOk || !request.allowed {
        return Stopped("authorization_required");
      }
      var record := GetRecord(store.files, request.id);
      if !record.Found? {
        return Stopped("not_found");
      }
      if (request.revision != NoRevision && request.revision != record.revision) || record.intent.destination != "co-commit" {
        return Stopped("stale_revision");
      }
      FoundIs(store.files, request.id);
      var _ := Tick();
      var again := GetRecord(store.files, request.id);
      if !again.Found? || again.revision != record.revision {
        return Stopped("stale_revision");
      }
      var intent := again.intent;
      FoundIs(store.files, request.id);
      ValidBinding(store.files, request.id);
      SucceedsIs(host, world, intent, request.guarded);
      history := [Opened(intent)];
      JustOpened(host, intent);
      var bound := Tick();
      if intent.binding.None? || !intent.binding.value.Valid() || !bound.yes {
        return Stopped("invalid_binding");
      }
      var seen := Inspect(intent);
      if seen == None {
        return Stopped("observation_failed");
      }
      var o := seen.value;
      var fine := Match(intent, o);
      if !fine {
        return Stopped("request_changed");
      }
      assert history[..2] == [Opened(intent), Saw(Some(o))];
      assert history[1] == history[..2][1] && history[0] == history[..2][0];
      if !PostWriter(o) {
        return Stopped("writer_or_sync_unproven");
      }
      var current := intent;
      if !o.proven {
        var out, stop;
        out, current, stop := Attempt(intent, o, request.guarded, now);
        if out == None {
          return if stop.NotRecorded? then OutcomeUnproven else stop;
        }
        o := out.value;
        SameBinding(intent, current);
      }
      r := Close(request.id, intent, current, o, later);
    }
  }

  /** A request that an undisturbed run can act on. */
  predicate Asked(request: Request, files: Files) {
    var record := GetRecord(files, request.id);
    && request.allowed && request.reviewPathOk && record.Found? && record.intent.destination == "co-commit"
    && (request.revision == NoRevision || request.revision == record.revision)
  }

  lemma AskedIs(request: Request, files: Files)
    ensures var record := GetRecord(files, request.id);
      Asked(request, files) <==>
        && request.allowed && request.reviewPathOk && record.Found? && record.intent.destination == "co-commit"
        && (request.revision == NoRevision || request.revision == record.revision)
  {
    hide GetRecord;
  }

  /** What `Succeeds` asks of the part after the first look. */
  predicate Onward(host: Host, world: World, intent: Intent, o: Observation, guarded: bool) {
    && OpenJournal(intent, o)
    && if o.state == "committing" then ProofAt(host, world, intent, 6, true)
       else guarded && (ProofAt(host, world, intent, 7, true) || PreparedThenCommitted(host, world, intent))
  }

  /** The step at which the helper's report proves the commit. */
  function ProofStep(world: World, intent: Intent, o: Observation): nat {
    if o.state == "committing" then 6
    else if Seen(world, intent, 7).Some? && Seen(world, intent, 7).value.proven then 7
    else 13
  }

  lemma OnwardIs(host: Host, world: World, intent: Intent, o: Observation, guarded: bool)
    ensures Onward(host, world, intent, o, guarded) ==>
      && intent.status != Finalized && o.automatic == Some(false) && (o.state != "committing" ==> guarded)
      && (o.state == "committing" ==> ProofStep(world, intent, o) == 6)
      && var n := if o.state == "committing" then 6 else 7;
         && Seen(world, intent, n).Some? && BindingMatches(host, intent, Seen(world, intent, n).value)
         && (o.state != "committing" ==> ProofStep(world, intent, o) != 6)
         && (Seen(world, intent, n).value.proven ==> ProofStep(world, intent, o) == n)
         && (!Seen(world, intent, n).value.proven ==>
               && n == 7 && ProofStep(world, intent, o) == 13
               && var p := Seen(world, intent, 7).value;
               && p.state == "prepared" && PostWriter(p)
               && CurrentRequest(host, intent, p, world(8).git) && CurrentRequest(host, intent, p, world(11).git)
               && Seen(world, intent, 13).Some? && BindingMatches(host, intent, Seen(world, intent, 13).value)
               && Seen(world, intent, 13).value.proven)
  {
    hide Seen, BindingMatches, CurrentRequest, PostWriter, Verified, ReceiptFits;
  }

  lemma SucceedsIs(host: Host, world: World, intent: Intent, guarded: bool)
    ensures Succeeds(host, world, intent, guarded) ==>
      && Seen(world, intent, 2).Some?
      && var o := Seen(world, intent, 2).value;
      && CurrentRequest(host, intent, o, world(3).git) && PostWriter(o)
      && (o.proven ==> ReceiptFits(o) && Verified(host, intent, o, world(4).git, intent.status != Finalized))
      && (!o.proven ==> Onward(host, world, intent, o, guarded))
      && (!o.proven ==>
            var n := ProofStep(world, intent, o);
            && Seen(world, intent, n).Some? && ReceiptFits(Seen(world, intent, n).value)
            && Verified(host, intent, Seen(world, intent, n).value, world(n + 1).git, intent.status != Finalized))
  {
    hide Seen, BindingMatches, CurrentRequest, PostWriter, Verified, ReceiptFits;
  }

  lemma ValidBinding(files: Files, id: string)
    ensures var record := GetRecord(files, id);
      record.Found? && record.intent.destination == "co-commit" ==> record.intent.binding.Some? && record.intent.binding.value.Valid()
  {
  }

  lemma SameBinding(intent: Intent, current: Intent)
    ensures FinalizingOf(intent, current) ==> current.binding == intent.binding
  {
  }

  lemma FoundIs(files: Files, id: string)
    ensures var record := GetRecord(files, id);
      record.Found? ==> record.revision == Of(id, record.intent) && record.intent.id == id
  {
  }

  lemma AlwaysAllowed(host: Host, h: History, e: Event)
    requires h != [] && (e.Rechecked? || e.Proved?)
    ensures Allowed(host, h, e)
  {
  }

  lemma NothingYet(host: Host)
    ensures Safe(host, [])
  {
  }

  lemma JustOpened(host: Host, intent: Intent)
    ensures Safe(host, [Opened(intent)])
    ensures Allowed(host, [Opened(intent)], Saw(None))
  {
    assert Allowed(host, [Opened(intent)][..0], Opened(intent));
  }

  lemma VerifiedIs(host: Host, intent: Intent, o: Observation, git: Git, requireHead: bool)
    requires Verified(host, intent, o, git, requireHead)
    ensures ProvenDone(o) && git.commitAt(o.commitOid).Some? && CommitOf(host, intent, o, git.commitAt(o.commitOid).value)
  {
  }

  lemma Uncalled(intent: Intent, o: Observation, git: Git, guarded: bool)
    ensures var h := [Opened(intent), Saw(Some(o)), Matched(git)] + if guarded then [Guarded] else [];
      NoCalls(h) && h[0] == Opened(intent)
  {
  }

  lemma NowAsk(host: Host, intent: Intent, current: Intent, o: Observation, git: Git, reconcile: bool)
    requires CurrentRequest(host, intent, o, git) && PostWriter(o) && !o.proven && (o.state == "committing") == reconcile
    requires o.automatic == Some(false) && intent.status != Finalized && FinalizingOf(intent, current)
    ensures var h := [Opened(intent), Saw(Some(o)), Matched(git)] + (if reconcile then [] else [Guarded]) + [Stored(intent, current)];
      var call := if reconcile then ReconcileOnly else PrepareOnly;
      Allowed(host, h, Called(call, o.journal, true)) && Allowed(host, h, Called(call, o.journal, false))
  {
    hide CurrentRequest, PostWriter, FinalizingOf;
    var h := [Opened(intent), Saw(Some(o)), Matched(git)] + (if reconcile then [] else [Guarded]) + [Stored(intent, current)];
    assert ReadyToAsk(host, h, o.journal, reconcile);
  }

  /** After the prepare-only call and the look at the journal, no commit-capable call has been made. */
  lemma FirstCall(intent: Intent, o: Observation, git: Git, current: Intent, h: History)
    requires |h| == 7
    requires h[..5] == [Opened(intent), Saw(Some(o)), Matched(git), Guarded, Stored(intent, current)]
    requires h[5].Called? && h[5].call == PrepareOnly && h[6].Saw?
    ensures NoCommitCall(h) && h[0] == Opened(intent)
    ensures h[3] == Guarded && h[4] == Stored(intent, current)
  {
    assert forall k :: 0 <= k < 5 ==> h[k] == h[..5][k];
  }

  lemma NowReady(host: Host, h: History, intent: Intent, current: Intent, o: Observation, g1: Git, g2: Git)
    requires 4 < |h| && h[0] == Opened(intent) && NoCommitCall(h) && !o.proven && o.state == "prepared" && PostWriter(o)
    requires h[|h| - 1] == Saw(Some(o)) && h[|h| - 2].Called? && h[|h| - 2].call == PrepareOnly && h[|h| - 2].fine
    requires h[|h| - 3] == Stored(intent, current) && FinalizingOf(intent, current) && h[|h| - 4].Guarded?
    requires CurrentRequest(host, intent, o, g1) && CurrentRequest(host, intent, o, g2)
    ensures var all := h + [Matched(g1), Guarded, Rechecked(current), Matched(g2)];
      && Allowed(host, all, Called(CommitCapable, o.journal, true))
      && Allowed(host, all, Called(CommitCapable, o.journal, false))
      && all[0] == Opened(intent)
  {
    hide CurrentRequest, PostWriter, FinalizingOf;
    var all := h + [Matched(g1), Guarded, Rechecked(current), Matched(g2)];
    assert ReadyToCommit(host, all, o.journal);
  }
}
