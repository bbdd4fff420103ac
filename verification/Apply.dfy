/**
 `Apply` with its write-ahead journal (internal/agentinterop/apply.go).
 `store` is the durable record store; a crash may fall between any two writes.
 */
module Transaction {
  import opened Options
  import opened FileTree
  import opened Effects

  type Id = string

  datatype Observation = Observation(loc: Location, image: Image)

  datatype Mode = Copy | Move | Mirror | Install | Undo

  datatype Status = Planned | Applying | Applied | Partial | InterruptedUnknown | Undone | Superseded

  datatype Record = Record(
    mode: Mode, status: Status, roots: map<string, nat>, guards: seq<Observation>, effects: seq<Effect>,
    completed: nat, inFlight: Option<nat>, parent: Option<Id>)

  /** The same plan: only the confirmed images may differ. */
  ghost predicate SamePlan(a: Record, b: Record) {
    && a.mode == b.mode && a.roots == b.roots && a.guards == b.guards && a.parent == b.parent
    && |a.effects| == |b.effects|
    && forall i :: 0 <= i < |a.effects| ==> SameButPost(a.effects[i], b.effects[i])
  }

  predicate SameButPost(a: Effect, b: Effect) {
    a.loc == b.loc && a.before == b.before && a.after == b.after && a.retirement == b.retirement
  }

  // The checks of one step.

  predicate PostsHold(t: Tree, r: Record)
    requires r.completed <= |r.effects|
  {
    forall i :: 0 <= i < r.completed ==>
      && r.effects[i].post.Some?
      && Snapshot(t, r.effects[i].loc).Some?
      && SameImage(Snapshot(t, r.effects[i].loc).value, r.effects[i].post.value)
  }

  predicate RootsHold(t: Tree, roots: map<string, nat>) {
    forall p <- roots :: var l := Location(p, []); l in t && t[l].Dir? && t[l].id == roots[p]
  }

  /** The ancestor of `l` that has `n` components. */
  function Upto(l: Location, n: nat): Location
    requires n <= |l.path|
  {
    Location(l.root, l.path[..n])
  }

  function FirstGuard(gs: seq<Observation>, l: Location): Option<Image> {
    if gs == [] then None
    else if gs[0].loc == l then Some(gs[0].image)
    else FirstGuard(gs[1..], l)
  }

  function LastPost(es: seq<Effect>, n: nat, l: Location): Option<Image>
    requires n <= |es|
  {
    if n == 0 then None
    else if es[n - 1].loc == l && es[n - 1].post.Some? then es[n - 1].post
    else LastPost(es, n - 1, l)
  }

  function Expected(r: Record, l: Location): Option<Image>
    requires r.completed <= |r.effects|
  {
    var post := LastPost(r.effects, r.completed, l);
    if post.Some? then post else FirstGuard(r.guards, l)
  }

  predicate AncestorHolds(t: Tree, r: Record, a: Location)
    requires r.completed <= |r.effects|
  {
    var want, have := Expected(r, a), Snapshot(t, a);
    && want.Some? && want.value.kind == DirKind
    && have.Some? && have.value.kind == DirKind
    && have.value.identity == want.value.identity && have.value.mode == want.value.mode
  }

  predicate AncestorsHold(t: Tree, r: Record, l: Location)
    requires r.completed <= |r.effects|
  {
    forall n {:trigger Upto(l, n)} :: 0 < n < |l.path| ==> AncestorHolds(t, r, Upto(l, n))
  }

  /** A directory is compared by identity and mode only: its membership may have changed. */
  predicate MatchesBefore(v: Image, before: Image) {
    if before.kind == DirKind then v.kind == DirKind && v.identity == before.identity && v.mode == before.mode
    else SameImage(v, before)
  }

  predicate Confirms(post: Image, after: Image) {
    match after.kind
    case DirKind => post.kind == DirKind && post.mode == after.mode
    case LinkKind => post.kind == LinkKind && post.link == after.link
    case _ => SameContent(post, after)
  }

  predicate Retiring(e: Effect) { e.after.kind == Absent || e.retirement }

  predicate StepChecks(t: Tree, r: Record)
    requires r.completed < |r.effects|
  {
    var e := r.effects[r.completed];
    && (Retiring(e) ==> PostsHold(t, r))
    && RootsHold(t, r.roots)
    && AncestorsHold(t, r, e.loc)
    && Snapshot(t, e.loc).Some? && MatchesBefore(Snapshot(t, e.loc).value, e.before)
    && Stored(e.after).Some?
  }

  // Directory membership changes as reviewed children are written: posts are read again.

  predicate DirPost(e: Effect) { e.post.Some? && e.post.value.kind == DirKind }

  predicate Refreshable(t: Tree, es: seq<Effect>, n: nat)
    requires n <= |es|
  {
    forall j :: 0 <= j < n && DirPost(es[j]) ==> Snapshot(t, es[j].loc).Some?
  }

  function Refreshed(t: Tree, es: seq<Effect>, n: nat): seq<Effect>
    requires n <= |es|
  {
    seq(|es|, j requires 0 <= j < |es| => if j < n && DirPost(es[j]) then es[j].(post := Snapshot(t, es[j].loc)) else es[j])
  }

  method RefreshPosts(t: Tree, es: seq<Effect>, n: nat) returns (ok: bool, out: seq<Effect>)
    requires n <= |es|
    ensures ok <==> Refreshable(t, es, n)
    ensures ok ==> out == Refreshed(t, es, n)
    ensures |out| == |es| && forall j :: 0 <= j < |es| ==> SameButPost(out[j], es[j])
  {
    out := es;
    for j := 0 to n
      invariant |out| == |es|
      invariant forall i :: 0 <= i < j ==> out[i] == Refreshed(t, es, n)[i]
      invariant forall i :: j <= i < |es| ==> out[i] == es[i]
      invariant forall i :: 0 <= i < j && DirPost(es[i]) ==> Snapshot(t, es[i].loc).Some?
    {
      if DirPost(out[j]) {
        var v := Snapshot(t, out[j].loc);
        if v == None {
          return false, out;
        }
        out := out[j := out[j].(post := v)];
      }
    }
    return true, out;
  }

  method VerifyAncestors(t: Tree, r: Record, l: Location) returns (ok: bool)
    requires r.completed <= |r.effects|
    ensures ok <==> AncestorsHold(t, r, l)
  {
    var n: nat := |l.path|;
    while n > 1
      invariant n <= |l.path|
      invariant 0 < |l.path| ==> 0 < n
      invariant forall m {:trigger Upto(l, m)} :: n <= m < |l.path| ==> AncestorHolds(t, r, Upto(l, m))
    {
      n := n - 1;
      var parent := Upto(l, n);
      var expected := None;
      var k := 0;
      while k < |r.guards| && r.guards[k].loc != parent
        invariant k <= |r.guards|
        invariant FirstGuard(r.guards, parent) == FirstGuard(r.guards[k..], parent)
      {
        k := k + 1;
      }
      if k < |r.guards| {
        expected := Some(r.guards[k].image);
      }
      assert expected == FirstGuard(r.guards, parent);
      for j := 0 to r.completed
        invariant expected == if LastPost(r.effects, j, parent).Some? then LastPost(r.effects, j, parent) else FirstGuard(r.guards, parent)
      {
        if r.effects[j].loc == parent && r.effects[j].post.Some? {
          expected := r.effects[j].post;
        }
      }
      if expected == None || expected.value.kind != DirKind {
        return false;
      }
      var v := Snapshot(t, parent);
      if v == None || v.value.kind != DirKind || v.value.identity != expected.value.identity || v.value.mode != expected.value.mode {
        return false;
      }
    }
    return true;
  }

  // One whole step, and what the journal says about the disk.

  predicate ConfirmPasses(t: Tree, r: Record)
    requires r.completed < |r.effects|
  {
    var post := Snapshot(t, r.effects[r.completed].loc);
    && post.Some? && Confirms(post.value, r.effects[r.completed].after)
    && Refreshable(t, Confirmed(r, post).effects, r.completed + 1)
  }

  /** Effect `completed` confirmed with the image `post`. */
  function Confirmed(r: Record, post: Option<Image>): Record
    requires r.completed < |r.effects|
  {
    r.(effects := r.effects[r.completed := r.effects[r.completed].(post := post)], completed := r.completed + 1, inFlight := None)
  }

  function ConfirmedBy(t: Tree, r: Record): Record
    requires r.completed < |r.effects|
  {
    var done := Confirmed(r, Snapshot(t, r.effects[r.completed].loc));
    done.(effects := Refreshed(t, done.effects, done.completed))
  }

  predicate StepPasses(d: Disk, r: Record)
    requires r.completed < |r.effects|
  {
    && StepChecks(d.tree, r)
    && PublishEffect(d, r.effects[r.completed]).Some?
    && ConfirmPasses(PublishEffect(d, r.effects[r.completed]).value.tree, r)
  }

  function AfterStep(d: Disk, r: Record): Record
    requires r.completed < |r.effects| && StepPasses(d, r)
  {
    ConfirmedBy(PublishEffect(d, r.effects[r.completed]).value.tree, r)
  }

  /** `done` effects have really taken place: with nothing in flight the record counts them
      exactly; with effect `i` in flight that effect may or may not have. */
  ghost predicate JournalMeans(r: Record, done: nat) {
    match r.inFlight
    case None => done == r.completed
    case Some(i) => i == r.completed && (done == i || done == i + 1)
  }

  predicate UndoAccepts(r: Record) {
    r.inFlight == None && (r.status == Applied || r.status == Partial)
  }

  predicate ApplyAccepts(r: Record) {
    r.status == Planned && r.completed == 0 && r.inFlight == None
  }

  lemma RunToNext(d: Disk, es: seq<Effect>, i: nat, e: Effect)
    requires i < |es| && SameButPost(e, es[i])
    ensures RunTo(d, es, i + 1) == match PublishEffect(RunTo(d, es, i), e) case Some(next) => next case None => RunTo(d, es, i)
  {
    hide Publish, Stored;
  }

  /** What the closing write of a run makes durable: all effects are done, or it stopped with none in flight, or with one. */
  predicate Closing(r: Record, done: nat) {
    || (r.status == Applied && done == |r.effects|)
    || (r.status == Partial && r.inFlight == None)
    || (r.status == InterruptedUnknown && r.inFlight.Some?)
  }

  /** What the platform does to one write: carry it out or not, and report, fail or lose power. */
  datatype Fault = Works | FailsBefore | FailsAfter | CrashesBefore | CrashesAfter

  predicate TakesEffect(f: Fault) { f.Works? || f.FailsAfter? || f.CrashesAfter? }

  datatype Ack = Done | Error | Crash

  function Report(f: Fault): Ack {
    match f
    case Works => Done
    case FailsBefore => Error
    case FailsAfter => Error
    case _ => Crash
  }

  /** Refused: nothing was changed. StillHolds: it was already applied and its posts match. Stopped: a reported error. */
  datatype Outcome = Completed | StillHolds | Refused | Stopped | Crashed

  /** The platform's answer to write number `n`; every run makes finitely many. */
  function FaultAt(faults: seq<Fault>, n: nat): Fault {
    if n < |faults| then faults[n] else Works
  }

  /** The disk another program may have left before turn `n`. */
  function EditAt(edits: seq<Option<Disk>>, n: nat, d: Disk): Disk {
    if n < |edits| && edits[n].Some? then edits[n].value else d
  }

  predicate Quiet(edits: seq<Option<Disk>>) { forall i :: 0 <= i < |edits| ==> edits[i] == None }

  /** What others did to the disk before each turn left `l` alone; `seen` are the disks they found. */
  predicate LeftAlone(seen: seq<Disk>, edits: seq<Option<Disk>>, l: Location) {
    forall i :: 0 <= i < |seen| ==> At(ViewOf(EditAt(edits, i, seen[i]).tree), l) == At(ViewOf(seen[i].tree), l)
  }

  /** Every location that others left alone shows what the first `done` effects make of it, whatever they did elsewhere. */
  ghost predicate Follows(origin: Disk, es: seq<Effect>, done: nat, seen: seq<Disk>, edits: seq<Option<Disk>>,
      now: Disk) {
    done <= |es| && forall l :: LeftAlone(seen, edits, l) ==> At(ViewOf(now.tree), l) == At(ViewAt(ViewOf(origin.tree), es, done), l)
  }

  predicate Faultless(faults: seq<Fault>) { forall i :: 0 <= i < |faults| ==> faults[i] == Works }

  /** The observations `Apply` checks before its first mutation. */
  predicate ReadyToRun(t: Tree, store: map<Id, Record>, id: Id)
    requires id in store
  {
    var r := store[id];
    && ApplyAccepts(r)
    && RootsHold(t, r.roots)
    && (r.parent.Some? ==>
          && r.parent.value in store
          && (store[r.parent.value].status == Applied || (r.mode == Undo && store[r.parent.value].status == Partial)))
    && (forall k :: 0 <= k < |r.guards| ==>
          Snapshot(t, r.guards[k].loc).Some? && SameImage(Snapshot(t, r.guards[k].loc).value, r.guards[k].image))
    && (forall k :: 0 <= k < |r.effects| ==> Stored(r.effects[k].after).Some? && Stored(r.effects[k].before).Some?)
  }

  /** Each publication was attempted only after all the checks of its step, on the disk as it then was. */
  ghost predicate TriesOk(tries: seq<(Disk, Record)>, plan: Record) {
    forall k :: 0 <= k < |tries| ==>
      SamePlan(tries[k].1, plan) && tries[k].1.completed == k < |plan.effects| && StepChecks(tries[k].0.tree, tries[k].1)
  }

  lemma StatusIrrelevant(tries: seq<(Disk, Record)>, plan: Record, status: Status)
    requires TriesOk(tries, plan.(status := status))
    ensures TriesOk(tries, plan)
  {
    hide StepChecks, SamePlan;
    forall k | 0 <= k < |tries|
      ensures SamePlan(tries[k].1, plan) && tries[k].1.completed == k < |plan.effects|
      ensures k < |tries[k].1.effects| && StepChecks(tries[k].0.tree, tries[k].1)
    {
      assert SamePlan(tries[k].1, plan.(status := status));
      StatusAside(tries[k].1, plan, status);
      SamePlanParts(tries[k].1, plan);
    }
  }

  lemma StatusAside(r: Record, plan: Record, status: Status)
    requires SamePlan(r, plan.(status := status))
    ensures SamePlan(r, plan)
  {
  }

  /** Every remaining step passes on a disk nobody else edits. */
  predicate Passes(d: Disk, r: Record)
    requires r.completed <= |r.effects|
    decreases |r.effects| - r.completed
  {
    r.completed == |r.effects| ||
    (StepPasses(d, r) && Passes(PublishEffect(d, r.effects[r.completed]).value, AfterStep(d, r)))
  }

  lemma PassesNext(d: Disk, r: Record)
    requires r.completed < |r.effects|
    ensures StepPasses(d, r) ==>
              (Passes(d, r) <==> Passes(PublishEffect(d, r.effects[r.completed]).value, AfterStep(d, r)))
    ensures Passes(d, r) ==> StepPasses(d, r)
  {
    hide Publish, StepChecks, ConfirmPasses;
  }

  lemma SamePlanParts(a: Record, b: Record)
    requires SamePlan(a, b)
    ensures |a.effects| == |b.effects|
    ensures forall i :: 0 <= i < |a.effects| ==> SameButPost(a.effects[i], b.effects[i])
    ensures forall i :: 0 <= i < |a.effects| ==> a.effects[i].loc == b.effects[i].loc
  {
  }

  lemma SamePlanTrans(a: Record, b: Record, c: Record)
    requires SamePlan(a, b) && SamePlan(b, c)
    ensures SamePlan(a, c)
  {
  }

  /** A publication gives its own location its goal and leaves every other one. */
  lemma PublishAt(d: Disk, e: Effect, l: Location)
    requires PublishEffect(d, e).Some?
    ensures At(ViewOf(PublishEffect(d, e).value.tree), l) == if l == e.loc then Goal(e) else At(ViewOf(d.tree), l)
  {
    hide Walk, Names, Stored;
  }

  lemma NothingYet(d: Disk, r: Record)
    requires r.completed == 0 && r.inFlight == None
    ensures JournalMeans(r, 0) && SamePlan(r, r) && TriesOk([], r) && d == RunTo(d, r.effects, 0)
  {
  }

  lemma NoneLeft(d: Disk, r: Record)
    requires r.completed == |r.effects|
    ensures Passes(d, r)
  {
  }

  lemma JournalCounts(r: Record, done: nat)
    requires JournalMeans(r, done)
    ensures r.inFlight == None ==> done == r.completed
  {
  }

  lemma ClosingMeans(r: Record, done: nat)
    ensures Closing(r, done) && r.status == Applied ==> done == |r.effects|
  {
  }

  lemma WorksAt(faults: seq<Fault>, n: nat)
    ensures Faultless(faults) ==> FaultAt(faults, n) == Works
  {
  }

  lemma TriesMore(tries: seq<(Disk, Record)>, attempt: seq<(Disk, Record)>, start: Disk, r: Record, plan: Record)
    requires TriesOk(tries, plan) && SamePlan(r, plan) && |tries| == r.completed < |plan.effects|
    requires attempt != [] ==> attempt == [(start, r)] && r.completed < |r.effects| && StepChecks(start.tree, r)
    ensures TriesOk(tries + attempt, plan)
  {
    hide StepChecks, SamePlan;
    forall k | 0 <= k < |tries + attempt|
      ensures SamePlan((tries + attempt)[k].1, plan) && (tries + attempt)[k].1.completed == k < |plan.effects|
      ensures k < |(tries + attempt)[k].1.effects| && StepChecks((tries + attempt)[k].0.tree, (tries + attempt)[k].1)
    {
      if k < |tries| {
        assert (tries + attempt)[k] == tries[k];
      }
      SamePlanParts((tries + attempt)[k].1, plan);
    }
  }

  lemma QuietAt(edits: seq<Option<Disk>>, n: nat, d: Disk)
    ensures Quiet(edits) ==> EditAt(edits, n, d) == d
  {
  }

  lemma FollowsFirst(d: Disk, es: seq<Effect>, edits: seq<Option<Disk>>)
    ensures Follows(d, es, 0, [], edits, d)
  {
  }

  lemma FollowsOn(origin: Disk, es: seq<Effect>, done: nat, seen: seq<Disk>, edits: seq<Option<Disk>>, now: Disk,
      e: Effect, next: Disk, hit: nat)
    requires Follows(origin, es, done, seen, edits, now) && done < |es| && SameButPost(e, es[done]) && hit <= 1
    requires var start := EditAt(edits, |seen|, now);
      if hit == 1 then PublishEffect(start, e) == Some(next) else next == start
    ensures Follows(origin, es, done + hit, seen + [now], edits, next)
  {
    var start, more := EditAt(edits, |seen|, now), seen + [now];
    hide EditAt, PublishEffect, ViewOf, Goal;
    forall l | LeftAlone(more, edits, l)
      ensures At(ViewOf(next.tree), l) == At(ViewAt(ViewOf(origin.tree), es, done + hit), l)
    {
      AloneBefore(seen, now, edits, l);
      if hit == 1 {
        PublishAt(start, e, l);
        SameGoal(e, es[done]);
        PutAt(ViewAt(ViewOf(origin.tree), es, done), es[done].loc, Goal(es[done]), l);
      }
    }
  }

  lemma AloneBefore(seen: seq<Disk>, now: Disk, edits: seq<Option<Disk>>, l: Location)
    requires LeftAlone(seen + [now], edits, l)
    ensures LeftAlone(seen, edits, l) && At(ViewOf(EditAt(edits, |seen|, now).tree), l) == At(ViewOf(now.tree), l)
  {
    hide EditAt, ViewOf, At;
    var more := seen + [now];
    assert more[|seen|] == now;
    forall i | 0 <= i < |seen|
      ensures At(ViewOf(EditAt(edits, i, seen[i]).tree), l) == At(ViewOf(seen[i].tree), l)
    {
      assert more[i] == seen[i];
    }
  }

  lemma SameGoal(a: Effect, b: Effect)
    requires SameButPost(a, b)
    ensures Goal(a) == Goal(b)
  {
  }

  lemma PutAt(v: View, l: Location, e: Option<Entry>, k: Location)
    ensures At(Put(v, l, e), k) == if k == l then e else At(v, k)
  {
  }

  class Service {
    var disk: Disk
    var store: map<Id, Record>

    constructor (disk: Disk, store: map<Id, Record>)
      ensures this.disk == disk && this.store == store
    {
      this.disk := disk;
      this.store := store;
    }

    method Save(id: Id, r: Record, f: Fault) returns (ack: Ack)
      modifies this`store
      ensures store == if TakesEffect(f) then old(store)[id := r] else old(store)
      ensures ack == Report(f)
    {
      if TakesEffect(f) {
        store := store[id := r];
      }
      ack := Report(f);
    }

    /** The closing write of a run that stops with an error. */
    method Fail(id: Id, r: Record, f: Fault) returns (out: Outcome)
      requires id in store
      modifies this`store
      ensures out == if Report(f) == Crash then Crashed else Stopped
      ensures store == if TakesEffect(f)
                       then old(store)[id := r.(status := if r.inFlight.Some? then InterruptedUnknown else Partial)]
                       else old(store)
    {
      var last := r.(status := if r.inFlight.Some? then InterruptedUnknown else Partial);
      var ack := Save(id, last, f);
      out := if ack == Crash then Crashed else Stopped;
    }

    method CheckStep(r: Record) returns (ok: bool)
      requires r.completed < |r.effects|
      ensures ok <==> StepChecks(disk.tree, r)
    {
      var eff := r.effects[r.completed];
      if Retiring(eff) && !PostsHold(disk.tree, r) {
        return false;
      }
      if !RootsHold(disk.tree, r.roots) {
        return false;
      }
      ok := VerifyAncestors(disk.tree, r, eff.loc);
      if !ok {
        return false;
      }
      var v := Snapshot(disk.tree, eff.loc);
      return v.Some? && MatchesBefore(v.value, eff.before) && Stored(eff.after).Some?;
    }

    method PublishStep(eff: Effect, f: Fault) returns (ack: Ack, ghost hit: bool)
      modifies this`disk
      ensures hit <==> PublishEffect(old(disk), eff).Some? && TakesEffect(f)
      ensures disk == if hit then PublishEffect(old(disk), eff).value else old(disk)
      ensures ack == if Report(f) == Done && PublishEffect(old(disk), eff) == None then Error else Report(f)
    {
      var next := PublishEffect(disk, eff);
      hit := false;
      if next.Some? && TakesEffect(f) {
        disk := next.value;
        hit := true;
      }
      ack := if Report(f) == Done && next == None then Error else Report(f);
    }

    /** The confirming read after a publication; on failure `r'` is what memory then holds. */
    method Confirm(r: Record) returns (ok: bool, r': Record)
      requires r.completed < |r.effects| && r.inFlight == Some(r.completed)
      ensures ok <==> ConfirmPasses(disk.tree, r)
      ensures ok ==> r' == ConfirmedBy(disk.tree, r)
      ensures SamePlan(r', r) && r'.status == r.status
      ensures r' == r || (r'.inFlight == None && r'.completed == r.completed + 1)
    {
      var eff := r.effects[r.completed];
      var post := Snapshot(disk.tree, eff.loc);
      if post == None || !Confirms(post.value, eff.after) {
        return false, r;
      }
      r' := Confirmed(r, post);
      var effects;
      ok, effects := RefreshPosts(disk.tree, r'.effects, r'.completed);
      r' := r'.(effects := effects);
    }

    /** One journaled effect. `hit` says whether the disk entry was really changed. On Error, `r'`
        is the record in memory that the caller reports and closes. */
    method ApplyEffect(id: Id, r: Record, intent: Fault, publication: Fault, confirmation: Fault)
      returns (ack: Ack, r': Record, ghost hit: bool, ghost attempted: bool)
      requires id in store && store[id] == r
      requires r.completed < |r.effects| && r.inFlight == None && r.status == Applying
      modifies this
      ensures id in store && store == old(store)[id := store[id]]
      ensures hit ==> attempted && PublishEffect(old(disk), r.effects[r.completed]).Some?
      ensures disk == if hit then PublishEffect(old(disk), r.effects[r.completed]).value else old(disk)
      ensures attempted ==> StepChecks(old(disk).tree, r)
      ensures SamePlan(r', r) && SamePlan(store[id], r)
      ensures r'.status == Applying && store[id].status == Applying
      ensures JournalMeans(r', r.completed + if hit then 1 else 0)
      ensures JournalMeans(store[id], r.completed + if hit then 1 else 0)
      ensures ack == Done ==> hit && store[id] == r' && StepPasses(old(disk), r) && r' == AfterStep(old(disk), r)
      ensures ack == Done ==> r'.inFlight == None && r'.completed == r.completed + 1
      ensures intent == publication == confirmation == Works ==> ack == if StepPasses(old(disk), r) then Done else Error
    {
      r', hit, attempted := r, false, false;
      var ok := CheckStep(r);
      if !ok {
        return Error, r', hit, attempted;
      }
      r' := r.(inFlight := Some(r.completed));
      ack := Save(id, r', intent);
      if ack != Done {
        return ack, r', hit, attempted;
      }
      attempted := true;
      ack, hit := PublishStep(r.effects[r.completed], publication);
      if ack != Done {
        return ack, r', hit, attempted;
      }
      ok, r' := Confirm(r');
      if !ok {
        return Error, r', hit, attempted;
      }
      ack := Save(id, r', confirmation);
    }

    /** One turn of the loop: what others did to the disk, then one effect.
        `plan` and `origin` are the record and the disk the run began with. */
    method Turn(id: Id, r: Record, start: Disk, intent: Fault, publication: Fault, confirmation: Fault,
        ghost plan: Record, ghost origin: Disk)
      returns (ack: Ack, next: Record, ghost hit: nat, ghost attempt: seq<(Disk, Record)>)
      requires id in store && store[id] == r && SamePlan(r, plan)
      requires r.completed < |r.effects| && r.inFlight == None && r.status == Applying
      modifies this
      ensures id in store && store == old(store)[id := store[id]] && SamePlan(store[id], plan) && SamePlan(next, plan)
      ensures JournalMeans(store[id], r.completed + hit) && JournalMeans(next, r.completed + hit) && hit <= 1
      ensures store[id].status == Applying && next.status == Applying
      ensures start == RunTo(origin, plan.effects, r.completed) ==>
                disk == RunTo(origin, plan.effects, r.completed + hit)
      ensures if hit == 1 then PublishEffect(start, r.effects[r.completed]) == Some(disk) else disk == start
      ensures if attempt == [] then hit == 0 else attempt == [(start, r)] && StepChecks(start.tree, r)
      ensures ack == Done ==> hit == 1 && store[id] == next && (Passes(start, r) <==> Passes(disk, next))
      ensures ack == Done ==> next.inFlight == None && next.completed == r.completed + 1
      ensures intent == publication == confirmation == Works ==> ack == Done || (ack == Error && !Passes(start, r))
    {
      hide *;
      SamePlanParts(r, plan);
      RunToNext(origin, plan.effects, r.completed, r.effects[r.completed]);
      PassesNext(start, r);
      disk := start;
      ghost var attempted, h;
      ack, next, h, attempted := ApplyEffect(id, r, intent, publication, confirmation);
      SamePlanTrans(next, r, plan);
      SamePlanTrans(store[id], r, plan);
      hit, attempt := if h then 1 else 0, if attempted then [(start, r)] else [];
    }

    /** The closing write, unless the power is gone already. */
    method Close(id: Id, r: Record, ack: Ack, f: Fault, ghost plan: Record, ghost done: nat) returns (out: Outcome)
      requires id in store && SamePlan(store[id], plan) && SamePlan(r, plan)
      requires store[id].status == Applying && r.status == Applying && JournalMeans(store[id], done) && JournalMeans(r, done)
      requires ack == Done ==> r.inFlight == None && r.completed == |r.effects|
      modifies this`store
      ensures id in store && store == old(store)[id := store[id]] && SamePlan(store[id], plan) && JournalMeans(store[id], done)
      ensures Closing(store[id], done) || (store[id].status == Applying && out != Completed)
      ensures store[id].status == Applied ==> ack == Done
      ensures out == Completed ==> store[id].status == Applied
      ensures out == Crashed && store[id].status != Applying ==> f == CrashesAfter
      ensures out == Stopped && store[id].status == Applying ==> f == FailsBefore
      ensures out in {Completed, Stopped, Crashed} && (f == Works && ack != Crash ==> out == if ack == Done then Completed else Stopped)
    {
      if ack == Crash {
        return Crashed;
      }
      if ack == Error {
        out := Fail(id, r, f);
        return out;
      }
      var saved := Save(id, r.(status := Applied), f);
      out := match saved case Done => Completed case Error => Stopped case Crash => Crashed;
    }

    /** The effects in order. `done` counts those that really took place; `tries` holds the disk
        and the record each publication was attempted from. */
    method RunEffects(id: Id, r0: Record, faults: seq<Fault>, edits: seq<Option<Disk>>)
      returns (out: Outcome, ghost done: nat, ghost tries: seq<(Disk, Record)>, ghost seen: seq<Disk>)
      requires id in store && store[id] == r0
      requires r0.status == Applying && r0.completed == 0 && r0.inFlight == None
      modifies this
      ensures id in store && store == old(store)[id := store[id]] && SamePlan(store[id], r0)
      ensures JournalMeans(store[id], done) && done <= |r0.effects|
      ensures store[id].status == Applied ==> done == |r0.effects|
      ensures Quiet(edits) ==> disk == RunTo(old(disk), r0.effects, done)
      ensures Follows(old(disk), r0.effects, done, seen, edits, disk)
      ensures TriesOk(tries, r0) && done <= |tries|
      ensures out == Completed ==> store[id].status == Applied
      ensures out != Refused && out != StillHolds
      ensures Closing(store[id], done) || (store[id].status == Applying && out != Completed)
      ensures out == Crashed && store[id].status != Applying ==> FaultAt(faults, 3 * |r0.effects| + 1) == CrashesAfter
      ensures out == Stopped && store[id].status == Applying ==> FaultAt(faults, 3 * |r0.effects| + 1) == FailsBefore
      ensures Quiet(edits) && Faultless(faults) ==> out == if Passes(old(disk), r0) then Completed else Stopped
    {
      hide *;
      var r, ack := r0, Done;
      var last := 3 * |r0.effects| + 1;
      done, tries, seen := 0, [], [];
      FollowsFirst(disk, r0.effects, edits);
      NothingYet(disk, r0);
      while ack == Done && r.completed < |r0.effects|
        invariant id in store && store == old(store)[id := store[id]] && SamePlan(store[id], r0) && SamePlan(r, r0)
        invariant store[id].status == Applying && r.status == Applying && |r.effects| == |r0.effects|
        invariant JournalMeans(store[id], done) && JournalMeans(r, done) && done <= |r0.effects|
        invariant ack == Done ==> store[id] == r && r.inFlight == None && |tries| == r.completed == |seen| == done
        invariant Follows(old(disk), r0.effects, done, seen, edits, disk)
        invariant done <= |tries| && TriesOk(tries, r0)
        invariant Quiet(edits) ==> disk == RunTo(old(disk), r0.effects, done)
        invariant ack == Done && Quiet(edits) ==> (Passes(old(disk), r0) <==> Passes(disk, r))
        invariant ack != Done && Quiet(edits) && Faultless(faults) ==> ack == Error && !Passes(old(disk), r0)
        decreases ack == Done, |r0.effects| - r.completed
      {
        var i := r.completed;
        ghost var hit, attempt;
        ghost var was, before := disk, r;
        QuietAt(edits, i, disk);
        WorksAt(faults, 3 * i + 1);
        WorksAt(faults, 3 * i + 2);
        WorksAt(faults, 3 * i + 3);
        SamePlanParts(r, r0);
        ack, r, hit, attempt := Turn(id, r, EditAt(edits, i, disk), FaultAt(faults, 3 * i + 1), FaultAt(faults, 3 * i + 2),
                                     FaultAt(faults, 3 * i + 3), r0, old(disk));
        SamePlanParts(r, r0);
        TriesMore(tries, attempt, EditAt(edits, i, was), before, r0);
        JournalCounts(r, done + hit);
        FollowsOn(old(disk), r0.effects, done, seen, edits, was, before.effects[i], disk, hit);
        tries, done, seen := tries + attempt, done + hit, seen + [was];
      }
      WorksAt(faults, last);
      if r.completed == |r.effects| {
        NoneLeft(disk, r);
      }
      out := Close(id, r, ack, FaultAt(faults, last), r0, done);
      ClosingMeans(store[id], done);
    }

    /** `Apply`: every check before the first mutation, then the effects in order.
        `faults` decides each write; `edits` is what other programs do to the disk between effects.
        A crash leaves the status `applying`, but for the first write (the plan may still be as it was) and the
        closing one (its status may be saved already). */
    method Apply(id: Id, faults: seq<Fault>, edits: seq<Option<Disk>>)
      returns (out: Outcome, ghost done: nat, ghost tries: seq<(Disk, Record)>, ghost seen: seq<Disk>)
      modifies this
      ensures out == Refused || out == StillHolds || !(id in old(store) && ReadyToRun(old(disk).tree, old(store), id)) ==>
                store == old(store) && disk == old(disk) && done == 0 && tries == []
      ensures id !in old(store) || !ReadyToRun(old(disk).tree, old(store), id) ==> out == Refused || out == StillHolds
      ensures out == StillHolds ==>
                id in store && store[id].status == Applied && store[id].completed <= |store[id].effects| && PostsHold(disk.tree, store[id])
      ensures id in old(store) ==>
                && id in store && store == old(store)[id := store[id]] && SamePlan(store[id], old(store)[id])
                && (ApplyAccepts(old(store)[id]) ==> JournalMeans(store[id], done) && done <= |store[id].effects|)
                && (ApplyAccepts(old(store)[id]) && store[id].status == Applied ==> done == |store[id].effects|)
                && (ApplyAccepts(old(store)[id]) && Quiet(edits) ==>
                      done <= |old(store)[id].effects| && disk == RunTo(old(disk), old(store)[id].effects, done))
                && (ApplyAccepts(old(store)[id]) ==> Follows(old(disk), old(store)[id].effects, done, seen, edits, disk))
                && TriesOk(tries, old(store)[id])
      ensures out == Completed ==> id in store && store[id].status == Applied
      ensures out == Crashed || out == Stopped ==>
                && id in store && id in old(store)
                && (Closing(store[id], done) || store[id].status == Applying || (store == old(store) && done == 0))
      ensures out == Crashed && store[id].status != Applying ==>
                if store == old(store) then FaultAt(faults, 0) == CrashesBefore
                else FaultAt(faults, 3 * |old(store)[id].effects| + 1) == CrashesAfter
      ensures id in old(store) && ReadyToRun(old(disk).tree, old(store), id) && Quiet(edits) && Faultless(faults) ==>
                out == if Passes(old(disk), old(store)[id].(status := Applying)) then Completed else Stopped
    {
      done, tries, seen := 0, [], [];
      if id in store {
        FollowsFirst(disk, store[id].effects, edits);
      }
      if id !in store || !RootsHold(disk.tree, store[id].roots) {
        return Refused, done, tries, seen;
      }
      var r := store[id];
      if r.status == Applied {
        out := if r.completed <= |r.effects| && PostsHold(disk.tree, r) then StillHolds else Refused;
        return out, done, tries, seen;
      }
      if !ReadyToRun(disk.tree, store, id) {
        return Refused, done, tries, seen;
      }
      assert ReadyToRun(disk.tree, store, id) && ApplyAccepts(r);
      hide PostsHold, StepChecks, PublishEffect, Passes, ReadyToRun, Follows;
      r := r.(status := Applying);
      var ack := Save(id, r, FaultAt(faults, 0));
      if ack != Done {
        return if ack == Crash then Crashed else Stopped, done, tries, seen;
      }
      out, done, tries, seen := RunEffects(id, r, faults, edits);
      StatusIrrelevant(tries, old(store)[id], Applying);
    }
  }
}
