/**
 The intent store of internal/artifact/store.go: one file per intent, replaced whole,
 and a revision that is a digest of the id and the exact stored bytes. Digests are
 injective, so a revision is represented by the id and the intent it was taken of.
 */
module IntentStore {
  import opened Options

  predicate LowerHex(c: char) { '0' <= c <= '9' || 'a' <= c <= 'f' }

  predicate IsDigest(s: string) { |s| == 64 && forall c <- s :: LowerHex(c) }

  predicate IsOid(s: string) { (|s| == 40 || |s| == 64) && forall c <- s :: LowerHex(c) }

  const NIL_ID: string := "00000000-0000-0000-0000-000000000000"

  /** A canonical, non-nil UUID. */
  predicate IsRequestId(s: string) {
    && |s| == 36 && s != NIL_ID
    && forall i :: 0 <= i < 36 ==> if i == 8 || i == 13 || i == 18 || i == 23 then s[i] == '-' else LowerHex(s[i])
  }

  predicate IdChar(c: char) {
    'a' <= c <= 'z' || 'A' <= c <= 'Z' || '0' <= c <= '9' || c == '.' || c == '_' || c == '-'
  }

  predicate IsId(s: string) { s != "" && forall c <- s :: IdChar(c) }

  datatype Status = Armed | Finalizing | Finalized | Failed | Discarded | OtherStatus

  datatype Binding = Binding(
    protocol: nat, helperRevision: string, requestPath: string, requestId: string, requestRevision: string,
    inputTree: string, messageDigest: string, planPolicy: string, policyToken: string,
    preparedTree: string, receiptRevision: string)
  {
    predicate Valid() {
      && protocol == 2 && IsRequestId(requestId)
      && IsDigest(helperRevision) && IsDigest(requestRevision) && IsDigest(messageDigest) && IsDigest(policyToken)
      && IsOid(inputTree) && (preparedTree == "" || IsOid(preparedTree))
      && (receiptRevision == "" || IsDigest(receiptRevision))
      && (planPolicy == "path" || planPolicy == "none")
    }
  }

  datatype Intent = Intent(
    id: string, schema: nat, runId: string, provider: string, session: string,
    repo: string, commonDir: string, worktree: string, branch: string, head: string,
    specStory: string, plans: seq<string>, destination: string, binding: Option<Binding>,
    archivePolicy: string, archiveDir: string,
    status: Status, transcript: string, artifactCommit: string, failure: string, updated: int)
  {
    predicate Valid() {
      && destination in ["", "archive", "co-commit"]
      && (destination == "co-commit" ==> binding.Some? && status != Discarded && binding.value.Valid())
      && (destination != "co-commit" ==> binding.None?)
      && (destination == "archive" ==> archiveDir != "" && archivePolicy != "")
      && schema == 1 && IsId(id) && IsId(runId) && provider != "" && session != ""
      && repo != "" && worktree != "" && commonDir != "" && branch != "" && head != ""
      && status != OtherStatus
    }
  }

  /** A stored file either decodes to an intent or does not. */
  datatype File = Damaged | Holds(intent: Intent)

  type Files = map<string, File>

  datatype Revision = NoRevision | Of(id: string, content: Intent)

  datatype Read = Missing | Unreadable | Found(intent: Intent, revision: Revision)

  function GetRecord(files: Files, id: string): Read {
    if !IsId(id) then Unreadable
    else if id !in files then Missing
    else
      match files[id]
      case Damaged => Unreadable
      case Holds(intent) => if intent.id == id && intent.Valid() then Found(intent, Of(id, intent)) else Unreadable
  }

  datatype Outcome = Updated(intent: Intent) | Stale | Refused

  /** No two readable intents claim one run. */
  ghost predicate RunsDiffer(files: Files) {
    forall a, b :: GetRecord(files, a).Found? && GetRecord(files, b).Found? && a != b ==>
      GetRecord(files, a).intent.runId != GetRecord(files, b).intent.runId
  }

  predicate RunFree(files: Files, runId: string) {
    forall id <- files :: GetRecord(files, id).Found? && GetRecord(files, id).intent.runId != runId
  }

  function Stamped(intent: Intent, now: int): Intent { intent.(updated := now) }

  class Store {
    var files: Files

    constructor ()
      ensures files == map[]
    {
      files := map[];
    }

    /** A new intent takes a free id and a run that no stored intent has. */
    method Create(intent: Intent, newId: string, now: int) returns (r: Outcome)
      modifies this`files
      ensures r != Stale
      ensures var id := if intent.id == "" then newId else intent.id;
        r.Updated? <==> intent.(id := id, schema := 1, status := Armed, updated := now).Valid()
                        && id !in old(files) && RunFree(old(files), intent.runId)
      ensures r.Updated? ==> files == old(files)[r.intent.id := Holds(r.intent)] && r.intent.status == Armed
      ensures r.Updated? ==> GetRecord(files, r.intent.id) == Found(r.intent, Of(r.intent.id, r.intent))
      ensures r == Refused ==> files == old(files)
      ensures old(RunsDiffer(files)) ==> RunsDiffer(files)
    {
      var id := if intent.id == "" then newId else intent.id;
      var candidate := intent.(id := id, schema := 1, status := Armed, updated := now);
      if !candidate.Valid() || id in files || !RunFree(files, candidate.runId) {
        return Refused;
      }
      ghost var before := files;
      files := files[id := Holds(candidate)];
      assert forall other :: other != id ==> GetRecord(files, other) == GetRecord(before, other);
      return Updated(candidate);
    }

    /** The compare-and-set: a write takes place over the very intent `expected` names, or not at all; after one that
        changed anything `expected` is spent. The last clause ties the method to the function that `SecondWriter` and
        `NoLostUpdate` are about. */
    method UpdateIfRevision(id: string, expected: Revision, change: Intent -> Option<Intent>, now: int)
      returns (r: Outcome)
      modifies this`files
      ensures r.Updated? <==>
                (exists was :: GetRecord(old(files), id) == Found(was, expected) && Acceptable(id, change(was), now))
      ensures r.Updated? ==>
                && r.intent == Stamped(change(GetRecord(old(files), id).intent).value, now)
                && GetRecord(files, id) == Found(r.intent, Of(id, r.intent))
                && (GetRecord(files, id).revision == expected <==> r.intent == GetRecord(old(files), id).intent)
      ensures r == Stale <==>
                GetRecord(old(files), id).Missing? || (GetRecord(old(files), id).Found? && GetRecord(old(files), id).revision != expected)
      ensures !r.Updated? ==> files == old(files)
      ensures forall other :: other != id ==> GetRecord(files, other) == GetRecord(old(files), other)
      ensures (files, r) == AfterUpdate(old(files), id, expected, change, now)
    {
      var record := GetRecord(files, id);
      if record.Missing? {
        return Stale;
      }
      if record.Unreadable? {
        return Refused;
      }
      if expected == NoRevision || record.revision != expected {
        return Stale;
      }
      var changed := change(record.intent);
      if changed == None || changed.value.id != id {
        return Refused;
      }
      var stored := Stamped(changed.value, now);
      if !stored.Valid() {
        return Refused;
      }
      files := files[id := Holds(stored)];
      return Updated(stored);
    }
  }

  /** The change an update may make: same id, and a valid intent after stamping. */
  predicate Acceptable(id: string, changed: Option<Intent>, now: int) {
    changed.Some? && changed.value.id == id && Stamped(changed.value, now).Valid()
  }

  function AfterUpdate(files: Files, id: string, expected: Revision, change: Intent -> Option<Intent>,
      now: int): (Files, Outcome) {
    var record := GetRecord(files, id);
    if record.Unreadable? then (files, Refused)
    else if record.Missing? || record.revision != expected then (files, Stale)
    else if !Acceptable(id, change(record.intent), now) then (files, Refused)
    else
      var stored := Stamped(change(record.intent).value, now);
      (files[id := Holds(stored)], Updated(stored))
  }

  /** A write happens only over the very intent the caller named, and touches nothing else. */
  lemma UpdateIsOverReviewed(files: Files, id: string, expected: Revision, change: Intent -> Option<Intent>, now: int)
    ensures var (after, r) := AfterUpdate(files, id, expected, change, now);
      && (r.Updated? ==>
            && expected == Of(id, GetRecord(files, id).intent) && GetRecord(files, id).Found?
            && GetRecord(after, id) == Found(r.intent, Of(id, r.intent)))
      && (!r.Updated? ==> after == files)
      && forall other :: other != id ==> GetRecord(after, other) == GetRecord(files, other)
  {
  }

  /**
   Two writers holding one revision: once the first has written, the second gets
   through if and only if the first wrote back exactly the bytes it had read.
   */
  lemma SecondWriter(
    files: Files, id: string, expected: Revision,
    first: Intent -> Option<Intent>, second: Intent -> Option<Intent>, now: int, later: int)
    requires AfterUpdate(files, id, expected, first, now).1.Updated?
    ensures var (mid, r) := AfterUpdate(files, id, expected, first, now);
      AfterUpdate(mid, id, expected, second, later).1.Updated? <==>
        r.intent == GetRecord(files, id).intent && Acceptable(id, second(r.intent), later)
    ensures var (mid, r) := AfterUpdate(files, id, expected, first, now);
      r.intent != GetRecord(files, id).intent ==> AfterUpdate(mid, id, expected, second, later) == (mid, Stale)
  {
    var (mid, r) := AfterUpdate(files, id, expected, first, now);
    assert GetRecord(mid, id) == Found(r.intent, Of(id, r.intent));
  }

  datatype Attempt = Attempt(expected: Revision, change: Intent -> Option<Intent>, now: int)

  function AfterAll(files: Files, id: string, attempts: seq<Attempt>): Files {
    if attempts == [] then files
    else AfterAll(AfterUpdate(files, id, attempts[0].expected, attempts[0].change, attempts[0].now).0, id, attempts[1..])
  }

  /** The intents stored one after another by the attempts that got through. */
  function Written(files: Files, id: string, attempts: seq<Attempt>): seq<Intent> {
    if attempts == [] then []
    else
      var a := attempts[0];
      var (after, r) := AfterUpdate(files, id, a.expected, a.change, a.now);
      (if r.Updated? then [r.intent] else []) + Written(after, id, attempts[1..])
  }

  /** The attempts that got through. */
  function Winners(files: Files, id: string, attempts: seq<Attempt>): seq<Attempt> {
    if attempts == [] then []
    else
      var a := attempts[0];
      var (after, r) := AfterUpdate(files, id, a.expected, a.change, a.now);
      (if r.Updated? then [a] else []) + Winners(after, id, attempts[1..])
  }

  predicate Follows(a: Attempt, id: string, before: Intent, after: Intent) {
    && a.expected == Of(id, before) && Acceptable(id, a.change(before), a.now)
    && after == Stamped(a.change(before).value, a.now)
  }

  predicate Chained(ws: seq<Attempt>, id: string, ins: seq<Intent>) {
    |ws| + 1 == |ins| && forall i :: 0 <= i < |ws| ==> Follows(ws[i], id, ins[i], ins[i + 1])
  }

  lemma ChainedMore(a: Attempt, ws: seq<Attempt>, id: string, first: Intent, ins: seq<Intent>)
    requires Chained(ws, id, ins) && Follows(a, id, first, ins[0])
    ensures Chained([a] + ws, id, [first] + ins)
  {
    hide Follows;
  }

  lemma WonFirst(files: Files, id: string, a: Attempt, rest: seq<Attempt>)
    requires GetRecord(files, id).Found?
    ensures var (after, r) := AfterUpdate(files, id, a.expected, a.change, a.now);
      && GetRecord(after, id).Found?
      && AfterAll(files, id, [a] + rest) == AfterAll(after, id, rest)
      && (r.Updated? ==>
            && Follows(a, id, GetRecord(files, id).intent, GetRecord(after, id).intent)
            && Winners(files, id, [a] + rest) == [a] + Winners(after, id, rest)
            && Written(files, id, [a] + rest) == [GetRecord(after, id).intent] + Written(after, id, rest))
      && (!r.Updated? ==>
            && after == files
            && Winners(files, id, [a] + rest) == Winners(after, id, rest)
            && Written(files, id, [a] + rest) == Written(after, id, rest))
  {
    assert ([a] + rest)[0] == a && ([a] + rest)[1..] == rest;
    UpdateIsOverReviewed(files, id, a.expected, a.change, a.now);
    var (after, r) := AfterUpdate(files, id, a.expected, a.change, a.now);
    hide Acceptable, Stamped;
    if !r.Updated? {
      assert [] + Winners(after, id, rest) == Winners(after, id, rest);
      assert [] + Written(after, id, rest) == Written(after, id, rest);
    }
  }

  lemma FollowsRead(files: Files, id: string)
    requires GetRecord(files, id).Found?
    ensures GetRecord(files, id) == Found(GetRecord(files, id).intent, Of(id, GetRecord(files, id).intent))
  {
  }

  /**
   However many writers race, nobody's write is lost: each one that got through read
   exactly what the one before it wrote, and the last of them is what is stored.
   */
  lemma {:induction false} NoLostUpdate(files: Files, id: string, attempts: seq<Attempt>)
    requires GetRecord(files, id).Found?
    ensures var ws, ins := Winners(files, id, attempts), [GetRecord(files, id).intent] + Written(files, id, attempts);
      && Chained(ws, id, ins)
      && GetRecord(AfterAll(files, id, attempts), id) == Found(ins[|ws|], Of(id, ins[|ws|]))
  {
    if attempts == [] {
      FollowsRead(files, id);
    } else {
      hide *;
      var a, rest := attempts[0], attempts[1..];
      assert attempts == [a] + rest;
      WonFirst(files, id, a, rest);
      var (after, r) := AfterUpdate(files, id, a.expected, a.change, a.now);
      NoLostUpdate(after, id, rest);
      if r.Updated? {
        var ins := [GetRecord(after, id).intent] + Written(after, id, rest);
        ChainedMore(a, Winners(after, id, rest), id, GetRecord(files, id).intent, ins);
        ChainedLength(Winners(after, id, rest), id, ins);
      }
    }
  }

  lemma ChainedLength(ws: seq<Attempt>, id: string, ins: seq<Intent>)
    requires Chained(ws, id, ins)
    ensures |ws| + 1 == |ins|
  {
  }
}
