/**
 The update check as a worker pool over groups of rows (internal/agentskill/update.go:86-219), without
 cancellation: every interleaving gives the rows of the row-by-row check, and no step can block for good.
 */
module UpdatePool {
  import opened Options
  import opened Ordering

  datatype Status = NotChecked | UpToDate | Outdated | Unknown | Failed

  datatype Verdict = Verdict(status: Status, detail: string)

  /** What a row's check depends on, besides the checkout. */
  datatype Want = Want(path: string, kind: string, hash: string)

  datatype Member = Member(index: nat, want: Want)

  datatype Group = Group(url: string, ref: string, members: seq<Member>)

  /** Fetching a source and comparing one skill with the checkout. */
  datatype Env = Env(clone: (string, string) -> Option<string>, check: (string, Want) -> Verdict)

  datatype Update = Update(index: nat, verdict: Verdict)

  const UNFETCHED := Verdict(Failed, "could not fetch source")

  /** The row-by-row meaning of one member. */
  function Judged(env: Env, g: Group, want: Want): Verdict {
    match env.clone(g.url, g.ref)
    case None => UNFETCHED
    case Some(dir) => env.check(dir, want)
  }

  function GroupResult(env: Env, g: Group): seq<Update> {
    seq(|g.members|, i requires 0 <= i < |g.members| => Update(g.members[i].index, Judged(env, g, g.members[i].want)))
  }

  // The pool.

  datatype Worker =
    | Idle
    | Cloning(pos: nat)
    | Checking(pos: nat, dir: string, done: nat, cached: map<Want, Verdict>, updates: seq<Update>)
    | Sending(pos: nat, updates: seq<Update>)
    | Exited

  datatype Sent = Sent(pos: nat, updates: seq<Update>)

  /** `next` counts the jobs taken, `clones` the sources fetched, `received` the results collected. */
  datatype State = State(next: nat, workers: seq<Worker>, sent: seq<Sent>, received: nat, ordered: map<nat, seq<Update>>, clones: seq<nat>)

  datatype Actor = Work(w: nat) | Collect

  function WithWorker(s: State, w: nat, x: Worker): State
    requires w < |s.workers|
  {
    s.(workers := s.workers[w := x])
  }

  predicate AllExited(s: State) {
    forall w :: 0 <= w < |s.workers| ==> s.workers[w].Exited?
  }

  /** The collector stops when the results are closed and all taken. */
  predicate Final(s: State) {
    AllExited(s) && s.received == |s.sent|
  }

  /** One step of one actor, None if it has to wait or has nothing more to do. */
  function Act(env: Env, gs: seq<Group>, s: State, a: Actor): Option<State> {
    match a
    case Collect =>
      if s.received < |s.sent| then
        var r := s.sent[s.received];
        Some(s.(received := s.received + 1, ordered := s.ordered[r.pos := r.updates]))
      else None
    case Work(w) =>
      if w >= |s.workers| then None
      else
        match s.workers[w]
        case Idle =>
          if s.next < |gs| then Some(WithWorker(s.(next := s.next + 1), w, Cloning(s.next)))
          else Some(WithWorker(s, w, Exited))
        case Cloning(pos) =>
          if pos >= |gs| then None
          else
            var t := s.(clones := s.clones + [pos]);
            Some(WithWorker(t, w, match env.clone(gs[pos].url, gs[pos].ref)
                                  case None => Sending(pos, FailedGroup(gs[pos]))
                                  case Some(dir) => Checking(pos, dir, 0, map[], [])))
        case Checking(pos, dir, done, cached, updates) =>
          if pos >= |gs| then None
          else if done >= |gs[pos].members| then Some(WithWorker(s, w, Sending(pos, updates)))
          else
            var m := gs[pos].members[done];
            var v := if m.want in cached then cached[m.want] else env.check(dir, m.want);
            Some(WithWorker(s, w, Checking(pos, dir, done + 1, cached[m.want := v], updates + [Update(m.index, v)])))
        case Sending(pos, updates) =>
          // The results channel has room for one result of each group.
          if |s.sent| - s.received < |gs| then Some(WithWorker(s.(sent := s.sent + [Sent(pos, updates)]), w, Idle)) else None
        case Exited => None
  }

  function FailedGroup(g: Group): seq<Update> {
    seq(|g.members|, i requires 0 <= i < |g.members| => Update(g.members[i].index, UNFETCHED))
  }

  function Start(workers: nat): State {
    State(0, seq(workers, _ => Idle), [], 0, map[], [])
  }

  /** A schedule names the actor of each step; an actor that cannot step is passed over. */
  function Run(env: Env, gs: seq<Group>, s: State, schedule: seq<Actor>): State
    decreases |schedule|
  {
    if schedule == [] then s
    else
      match Act(env, gs, s, schedule[0])
      case Some(t) => Run(env, gs, t, schedule[1..])
      case None => Run(env, gs, s, schedule[1..])
  }

  // The invariant.

  /** Where a group is: not taken, with a worker, or among the sent results. */
  datatype Place = Waiting | With(w: nat) | In(k: nat)

  predicate Busy(x: Worker) { x.Cloning? || x.Checking? || x.Sending? }

  /** What a worker has so far agrees with the row-by-row check. */
  ghost predicate WorkerOk(env: Env, gs: seq<Group>, x: Worker) {
    match x
    case Cloning(pos) => pos < |gs|
    case Checking(pos, dir, done, cached, updates) =>
      && pos < |gs| && done <= |gs[pos].members| && env.clone(gs[pos].url, gs[pos].ref) == Some(dir)
      && (forall want <- cached :: cached[want] == env.check(dir, want))
      && updates == GroupResult(env, gs[pos])[..done]
    case Sending(pos, updates) => pos < |gs| && updates == GroupResult(env, gs[pos])
    case _ => true
  }

  /** `place` says where each group is; what is there is right. */
  ghost predicate PlaceOk(s: State, place: seq<Place>, p: nat)
    requires p < |place|
  {
    match place[p]
    case Waiting => p >= s.next && p !in s.clones && p !in s.ordered
    case With(w) =>
      && p < s.next && w < |s.workers| && Busy(s.workers[w]) && s.workers[w].pos == p
      && (p in s.clones <==> !s.workers[w].Cloning?) && p !in s.ordered
    case In(k) => p < s.next && k < |s.sent| && s.sent[k].pos == p && p in s.clones && (p in s.ordered <==> k < s.received)
  }

  ghost predicate SentOk(env: Env, gs: seq<Group>, x: Sent) {
    x.pos < |gs| && x.updates == GroupResult(env, gs[x.pos])
  }

  predicate Distinct(ns: seq<nat>) {
    forall i, j :: 0 <= i < j < |ns| ==> ns[i] != ns[j]
  }

  ghost predicate Inv(env: Env, gs: seq<Group>, s: State, place: seq<Place>) {
    && s.next <= |gs| == |place| && s.received <= |s.sent|
    && (forall p {:trigger PlaceOk(s, place, p)} :: 0 <= p < |gs| ==> PlaceOk(s, place, p))
    && (forall w :: 0 <= w < |s.workers| ==>
          WorkerOk(env, gs, s.workers[w]) && (Busy(s.workers[w]) ==>
              place[s.workers[w].pos] == With(w)) && (s.workers[w].Exited? ==> s.next == |gs|))
    && (forall k :: 0 <= k < |s.sent| ==> SentOk(env, gs, s.sent[k]) && place[s.sent[k].pos] == In(k))
    && (forall p <- s.ordered :: p < |gs| && s.ordered[p] == GroupResult(env, gs[p]))
    && Distinct(s.clones) && (forall i :: 0 <= i < |s.clones| ==> s.clones[i] < |gs|)
  }

  lemma StartInv(env: Env, gs: seq<Group>, workers: nat) returns (place: seq<Place>)
    ensures Inv(env, gs, Start(workers), place)
  {
    place := seq(|gs|, _ => Waiting);
  }

  lemma PoolStep(env: Env, gs: seq<Group>, s: State, place: seq<Place>, a: Actor) returns (place': seq<Place>)
    requires Inv(env, gs, s, place) && Act(env, gs, s, a).Some?
    ensures Inv(env, gs, Act(env, gs, s, a).value, place')
  {
    var t := Act(env, gs, s, a).value;
    match a
    case Collect =>
      place' := place;
      CollectStep(env, gs, s, place);
    case Work(w) =>
      match s.workers[w]
      case Idle =>
        place' := if s.next < |gs| then place[s.next := With(w)] else place;
        TakeStep(env, gs, s, place, w);
      case Cloning(pos) =>
        place' := place;
        CloneStep(env, gs, s, place, w);
      case Checking(pos, dir, done, cached, updates) =>
        place' := place;
        CheckStep(env, gs, s, place, w);
      case Sending(pos, updates) =>
        place' := place[pos := In(|s.sent|)];
        SendStep(env, gs, s, place, w);
  }

  lemma CollectStep(env: Env, gs: seq<Group>, s: State, place: seq<Place>)
    requires Inv(env, gs, s, place) && Act(env, gs, s, Collect).Some?
    ensures Inv(env, gs, Act(env, gs, s, Collect).value, place)
  {
    var t := Act(env, gs, s, Collect).value;
    assert SentOk(env, gs, s.sent[s.received]);
    forall p {:trigger PlaceOk(t, place, p)} | 0 <= p < |gs|
      ensures PlaceOk(t, place, p)
    {
      assert PlaceOk(s, place, p);
    }
  }

  lemma TakeStep(env: Env, gs: seq<Group>, s: State, place: seq<Place>, w: nat)
    requires Inv(env, gs, s, place) && w < |s.workers| && s.workers[w].Idle?
    ensures Inv(env, gs, Act(env, gs, s, Work(w)).value, if s.next < |gs| then place[s.next := With(w)] else place)
  {
    var t, place' := Act(env, gs, s, Work(w)).value, if s.next < |gs| then place[s.next := With(w)] else place;
    assert s.next < |gs| ==> PlaceOk(s, place, s.next);
    forall p {:trigger PlaceOk(t, place', p)} | 0 <= p < |gs|
      ensures PlaceOk(t, place', p)
    {
      assert PlaceOk(s, place, p);
    }
  }

  lemma CloneStep(env: Env, gs: seq<Group>, s: State, place: seq<Place>, w: nat)
    requires Inv(env, gs, s, place) && w < |s.workers| && s.workers[w].Cloning?
    ensures Act(env, gs, s, Work(w)).Some? && Inv(env, gs, Act(env, gs, s, Work(w)).value, place)
  {
    var pos := s.workers[w].pos;
    assert WorkerOk(env, gs, s.workers[w]) && PlaceOk(s, place, pos);
    var t := Act(env, gs, s, Work(w)).value;
    assert env.clone(gs[pos].url, gs[pos].ref) == None ==> FailedGroup(gs[pos]) == GroupResult(env, gs[pos]);
    assert WorkerOk(env, gs, t.workers[w]);
    forall p {:trigger PlaceOk(t, place, p)} | 0 <= p < |gs|
      ensures PlaceOk(t, place, p)
    {
      assert PlaceOk(s, place, p);
    }
  }

  lemma CheckStep(env: Env, gs: seq<Group>, s: State, place: seq<Place>, w: nat)
    requires Inv(env, gs, s, place) && w < |s.workers| && s.workers[w].Checking?
    ensures Act(env, gs, s, Work(w)).Some? && Inv(env, gs, Act(env, gs, s, Work(w)).value, place)
  {
    assert WorkerOk(env, gs, s.workers[w]) && PlaceOk(s, place, s.workers[w].pos);
    var t := Act(env, gs, s, Work(w)).value;
    CheckedMore(env, gs, s.workers[w], t.workers[w]);
    hide WorkerOk, GroupResult;
    forall p {:trigger PlaceOk(t, place, p)} | 0 <= p < |gs|
      ensures PlaceOk(t, place, p)
    {
      assert PlaceOk(s, place, p);
    }
  }

  /** One more member judged, from the memo or by a check: either way as the row-by-row check judges it. */
  lemma CheckedMore(env: Env, gs: seq<Group>, x: Worker, y: Worker)
    requires x.Checking? && WorkerOk(env, gs, x)
    requires if x.done >= |gs[x.pos].members| then y == Sending(x.pos, x.updates)
             else var m := gs[x.pos].members[x.done];
                  var v := if m.want in x.cached then x.cached[m.want] else env.check(x.dir, m.want);
                  y == Checking(x.pos, x.dir, x.done + 1, x.cached[m.want := v], x.updates + [Update(m.index, v)])
    ensures WorkerOk(env, gs, y)
  {
    var r := GroupResult(env, gs[x.pos]);
    if x.done < |gs[x.pos].members| {
      assert r[..x.done + 1] == r[..x.done] + [r[x.done]];
    } else {
      assert r[..x.done] == r;
    }
  }

  lemma SendStep(env: Env, gs: seq<Group>, s: State, place: seq<Place>, w: nat)
    requires Inv(env, gs, s, place) && w < |s.workers| && s.workers[w].Sending? && Act(env, gs, s, Work(w)).Some?
    ensures Inv(env, gs, Act(env, gs, s, Work(w)).value, place[s.workers[w].pos := In(|s.sent|)])
  {
    var pos := s.workers[w].pos;
    assert WorkerOk(env, gs, s.workers[w]) && PlaceOk(s, place, pos);
    var t, place' := Act(env, gs, s, Work(w)).value, place[pos := In(|s.sent|)];
    assert SentOk(env, gs, t.sent[|s.sent|]);
    hide WorkerOk, GroupResult;
    forall p {:trigger PlaceOk(t, place', p)} | 0 <= p < |gs|
      ensures PlaceOk(t, place', p)
    {
      assert PlaceOk(s, place, p);
    }
  }

  // Progress.

  lemma {:induction false} Pigeonhole(ns: seq<nat>, n: nat)
    requires Distinct(ns) && forall i :: 0 <= i < |ns| ==> ns[i] < n
    ensures |ns| <= n
    decreases n
  {
    assert ns == [] || ns[0] < n;
    if n > 0 {
      if i :| 0 <= i < |ns| && ns[i] == n - 1 {
        Pigeonhole(ns[..i] + ns[i + 1..], n - 1);
      } else {
        Pigeonhole(ns, n - 1);
      }
    }
  }

  /** A worker with a result never waits for room to send it. */
  lemma SendNeverWaits(env: Env, gs: seq<Group>, s: State, place: seq<Place>, w: nat)
    requires Inv(env, gs, s, place) && w < |s.workers| && s.workers[w].Sending?
    ensures Act(env, gs, s, Work(w)).Some?
  {
    var pos := s.workers[w].pos;
    assert WorkerOk(env, gs, s.workers[w]);
    var ns := seq(|s.sent| + 1, k requires 0 <= k <= |s.sent| => if k < |s.sent| then s.sent[k].pos else pos);
    forall i, j | 0 <= i < j < |ns|
      ensures ns[i] != ns[j]
    {
      assert SentOk(env, gs, s.sent[i]) && place[ns[i]] == In(i);
    }
    forall i | 0 <= i < |ns|
      ensures ns[i] < |gs|
    {
      if i < |s.sent| {
        assert SentOk(env, gs, s.sent[i]);
      }
    }
    Pigeonhole(ns, |gs|);
  }

  /** No worker that has not exited ever has to wait. */
  lemma WorkersNeverWait(env: Env, gs: seq<Group>, s: State, place: seq<Place>, w: nat)
    requires Inv(env, gs, s, place) && w < |s.workers| && !s.workers[w].Exited?
    ensures Act(env, gs, s, Work(w)).Some?
  {
    assert WorkerOk(env, gs, s.workers[w]);
    if s.workers[w].Sending? {
      SendNeverWaits(env, gs, s, place, w);
    }
  }

  /** A pool that is not finished can step. */
  lemma NeverStuck(env: Env, gs: seq<Group>, s: State, place: seq<Place>) returns (a: Actor)
    requires Inv(env, gs, s, place) && !Final(s)
    ensures Act(env, gs, s, a).Some?
  {
    if s.received < |s.sent| {
      a := Collect;
    } else {
      var w :| 0 <= w < |s.workers| && !s.workers[w].Exited?;
      WorkersNeverWait(env, gs, s, place, w);
      a := Work(w);
    }
  }

  function Size(gs: seq<Group>, pos: nat): nat {
    if pos < |gs| then |gs[pos].members| else 0
  }

  /** An upper bound on the steps still to come from one worker's present job. */
  function Left(gs: seq<Group>, x: Worker): nat {
    match x
    case Idle => 1
    case Cloning(pos) => Size(gs, pos) + 5
    case Checking(pos, _, done, _, _) => (if done < Size(gs, pos) then Size(gs, pos) - done else 0) + 4
    case Sending(_, _) => 3
    case Exited => 0
  }

  function LeftAll(gs: seq<Group>, ws: seq<Worker>): nat {
    if ws == [] then 0 else Left(gs, ws[0]) + LeftAll(gs, ws[1..])
  }

  function Jobs(gs: seq<Group>, next: nat): nat
    decreases |gs| - next
  {
    if next >= |gs| then 0 else Size(gs, next) + 5 + Jobs(gs, next + 1)
  }

  function Potential(gs: seq<Group>, s: State): nat {
    Jobs(gs, s.next) + LeftAll(gs, s.workers) + if s.received < |s.sent| then |s.sent| - s.received else 0
  }

  lemma {:induction false} LeftUpdate(gs: seq<Group>, ws: seq<Worker>, w: nat, x: Worker)
    requires w < |ws|
    ensures LeftAll(gs, ws[w := x]) + Left(gs, ws[w]) == LeftAll(gs, ws) + Left(gs, x)
  {
    hide Left;
    if w > 0 {
      LeftUpdate(gs, ws[1..], w - 1, x);
      assert ws[w := x][1..] == ws[1..][w - 1 := x];
    } else {
      assert ws[w := x][1..] == ws[1..];
    }
  }

  /** Every step uses up some of a bound fixed at the start: the pool ends under every schedule that
      lets an actor step when it can. */
  lemma StepUsesUp(env: Env, gs: seq<Group>, s: State, a: Actor)
    requires Act(env, gs, s, a).Some? && s.received <= |s.sent|
    ensures Potential(gs, Act(env, gs, s, a).value) < Potential(gs, s)
  {
    hide *;
    var t := Act(env, gs, s, a).value;
    PotentialIs(gs, s);
    PotentialIs(gs, t);
    if a.Work? {
      WorkUsesUp(env, gs, s, a.w);
      LeftUpdate(gs, s.workers, a.w, t.workers[a.w]);
    } else {
      CollectUsesUp(env, gs, s);
    }
  }

  lemma PotentialIs(gs: seq<Group>, s: State)
    ensures Potential(gs, s) == Jobs(gs, s.next) + LeftAll(gs, s.workers) + if s.received < |s.sent| then |s.sent| - s.received else 0
  {
  }

  /** A worker's step spends from its own job, from the jobs not yet taken, or turns two units into a result. */
  lemma WorkUsesUp(env: Env, gs: seq<Group>, s: State, w: nat)
    requires Act(env, gs, s, Work(w)).Some? && s.received <= |s.sent|
    ensures var t := Act(env, gs, s, Work(w)).value;
      && w < |s.workers| && t.workers == s.workers[w := t.workers[w]] && t.received == s.received && |t.sent| >= |s.sent|
      && Jobs(gs, t.next) + Left(gs, t.workers[w]) + |t.sent| < Jobs(gs, s.next) + Left(gs, s.workers[w]) + |s.sent|
  {
    hide Judged, GroupResult, FailedGroup, LeftAll, Potential;
  }

  lemma CollectUsesUp(env: Env, gs: seq<Group>, s: State)
    requires Act(env, gs, s, Collect).Some? && s.received <= |s.sent|
    ensures var t := Act(env, gs, s, Collect).value;
      t.next == s.next && t.workers == s.workers && t.sent == s.sent && t.received == s.received + 1 <= |s.sent|
  {
    hide Judged, GroupResult, FailedGroup, LeftAll, Potential;
  }

  /** How many steps of a schedule are really taken. */
  function Taken(env: Env, gs: seq<Group>, s: State, schedule: seq<Actor>): nat
    decreases |schedule|
  {
    if schedule == [] then 0
    else
      match Act(env, gs, s, schedule[0])
      case Some(t) => 1 + Taken(env, gs, t, schedule[1..])
      case None => Taken(env, gs, s, schedule[1..])
  }

  /** After any schedule the invariant holds, and the steps taken stay below the bound. */
  lemma {:induction false} RunInv(env: Env, gs: seq<Group>, s: State, place: seq<Place>, schedule: seq<Actor>)
    returns (place': seq<Place>)
    requires Inv(env, gs, s, place)
    ensures Inv(env, gs, Run(env, gs, s, schedule), place')
    ensures Taken(env, gs, s, schedule) + Potential(gs, Run(env, gs, s, schedule)) <= Potential(gs, s)
    ensures |Run(env, gs, s, schedule).workers| == |s.workers|
    decreases |schedule|
  {
    hide Inv, Potential;
    place' := place;
    if schedule != [] {
      match Act(env, gs, s, schedule[0])
      case Some(t) =>
        InvCounts(env, gs, s, place);
        StepUsesUp(env, gs, s, schedule[0]);
        place' := PoolStep(env, gs, s, place, schedule[0]);
        place' := RunInv(env, gs, t, place', schedule[1..]);
      case None =>
        place' := RunInv(env, gs, s, place, schedule[1..]);
    }
  }

  /** From every reachable state some schedule finishes the pool; so does every schedule that keeps letting actors step. */
  lemma {:induction false} Finishes(env: Env, gs: seq<Group>, s: State, place: seq<Place>)
    returns (schedule: seq<Actor>)
    requires Inv(env, gs, s, place)
    ensures Final(Run(env, gs, s, schedule))
    decreases Potential(gs, s)
  {
    hide *;
    if Final(s) {
      schedule := [];
      RunNone(env, gs, s);
    } else {
      var a := NeverStuck(env, gs, s, place);
      InvCounts(env, gs, s, place);
      StepUsesUp(env, gs, s, a);
      var place' := PoolStep(env, gs, s, place, a);
      var rest := Finishes(env, gs, Act(env, gs, s, a).value, place');
      schedule := [a] + rest;
      RunNext(env, gs, s, a, rest);
    }
  }

  lemma RunNone(env: Env, gs: seq<Group>, s: State)
    ensures Run(env, gs, s, []) == s
  {
  }

  lemma RunNext(env: Env, gs: seq<Group>, s: State, a: Actor, rest: seq<Actor>)
    ensures Run(env, gs, s, [a] + rest) == if Act(env, gs, s, a).Some? then Run(env, gs, Act(env, gs, s, a).value,
              rest) else Run(env, gs, s, rest)
  {
    assert ([a] + rest)[0] == a && ([a] + rest)[1..] == rest;
    hide Act;
  }

  lemma InvCounts(env: Env, gs: seq<Group>, s: State, place: seq<Place>)
    requires Inv(env, gs, s, place)
    ensures s.received <= |s.sent|
  {
  }

  /** At the end every group has its row-by-row result, and each source was fetched exactly once. */
  lemma FinalResults(env: Env, gs: seq<Group>, s: State, place: seq<Place>)
    requires Inv(env, gs, s, place) && Final(s) && s.workers != []
    ensures forall p :: 0 <= p < |gs| ==> p in s.ordered && s.ordered[p] == GroupResult(env, gs[p])
    ensures Distinct(s.clones) && forall p: nat :: p in s.clones <==> p < |gs|
  {
    assert s.workers[0].Exited?;
    forall p | 0 <= p < |gs|
      ensures p in s.ordered && s.ordered[p] == GroupResult(env, gs[p]) && p in s.clones
    {
      assert PlaceOk(s, place, p);
    }
  }

  // Grouping the rows.

  /** What the lock of a row says, with its hash normalised; `source` is the clone URL, if there is one. */
  datatype Lock = Lock(source: Option<string>, ref: string, path: string, kind: string, hash: string)

  datatype Row = Row(managed: bool, lock: Option<Lock>, before: Verdict)

  datatype Class = Kept | Decided(verdict: Verdict) | Grouped(url: string, ref: string, want: Want)

  function ClassOf(row: Row, safe: string -> bool): Class {
    if !row.managed || row.lock == None then Kept
    else
      var l := row.lock.value;
      if l.source == None || l.path == "" then Decided(Verdict(Unknown, "lock entry has no checkable Git source and skill path"))
      else if !safe(l.path) then Decided(Verdict(Unknown, "invalid skill path in lock entry"))
      else if l.hash == "" || l.kind == "" then Decided(Verdict(Unknown, "lock entry has no comparable content hash"))
      else Grouped(l.source.value, l.ref, Want(l.path, l.kind, l.hash))
  }

  /** The row-by-row check. */
  function Expected(env: Env, row: Row, safe: string -> bool): Verdict {
    match ClassOf(row, safe)
    case Kept => row.before
    case Decided(v) => v
    case Grouped(url, ref, want) => Judged(env, Group(url, ref, []), want)
  }

  const NUL := '\0'

  function GroupKey(url: string, ref: string): string {
    url + [NUL] + ref
  }

  /** With no NUL in the URLs a key stands for one URL and ref. */
  lemma KeyTells(url: string, ref: string, url': string, ref': string)
    requires NUL !in url && NUL !in url' && GroupKey(url, ref) == GroupKey(url', ref')
    ensures url == url' && ref == ref'
  {
    FirstNul(url, ref);
    FirstNul(url', ref');
    var k := GroupKey(url, ref);
    assert |url| == |url'|;
    assert k[..|url|] == url && GroupKey(url', ref')[..|url'|] == url';
    assert k[|url| + 1..] == ref && GroupKey(url', ref')[|url'| + 1..] == ref';
  }

  lemma FirstNul(url: string, ref: string)
    requires NUL !in url
    ensures var k := GroupKey(url, ref); |url| < |k| && k[|url|] == NUL && forall i :: 0 <= i < |url| ==> k[i] != NUL
  {
  }

  predicate KeysClean(rows: seq<Row>) {
    forall i :: 0 <= i < |rows| && rows[i].lock.Some? && rows[i].lock.value.source.Some? ==> NUL !in rows[i].lock.value.source.value
  }

  predicate MemberOk(rows: seq<Row>, safe: string -> bool, key: string, m: Member) {
    m.index < |rows| &&
    var c := ClassOf(rows[m.index], safe);
    c.Grouped? && GroupKey(c.url, c.ref) == key && m.want == c.want
  }

  predicate InList(ms: seq<Member>, i: nat) {
    exists j :: 0 <= j < |ms| && ms[j].index == i
  }

  /** The first `n` rows are in the lists of their keys, once each, in row order. */
  ghost predicate GroupedTo(rows: seq<Row>, safe: string -> bool, byKey: map<string, seq<Member>>, n: nat)
    requires n <= |rows|
  {
    && (forall key <- byKey :: byKey[key] != [] && ListOk(rows, safe, key, byKey[key], n))
    && (forall i :: 0 <= i < n ==> RowListed(byKey, ClassOf(rows[i], safe), i))
  }

  predicate RowListed(byKey: map<string, seq<Member>>, c: Class, i: nat) {
    c.Grouped? ==> GroupKey(c.url, c.ref) in byKey && InList(byKey[GroupKey(c.url, c.ref)], i)
  }

  function Undecided(row: Row, safe: string -> bool): Verdict {
    match ClassOf(row, safe) case Decided(v) => v case _ => row.before
  }

  /** The first half: rows that need no source are decided, the others gathered by URL and ref. */
  method GroupRows(rows: seq<Row>, safe: string -> bool) returns (out: seq<Verdict>, byKey: map<string, seq<Member>>)
    ensures |out| == |rows| && forall i :: 0 <= i < |rows| ==> out[i] == Undecided(rows[i], safe)
    ensures GroupedTo(rows, safe, byKey, |rows|)
  {
    out := seq(|rows|, i requires 0 <= i < |rows| => rows[i].before);
    byKey := map[];
    for n := 0 to |rows|
      invariant |out| == |rows| && forall i :: 0 <= i < |rows| ==>
                  out[i] == if i < n then Undecided(rows[i], safe) else rows[i].before
      invariant GroupedTo(rows, safe, byKey, n)
    {
      match ClassOf(rows[n], safe) {
        case Kept =>
        case Decided(v) => out := out[n := v];
        case Grouped(url, ref, want) =>
          var key := GroupKey(url, ref);
          ghost var before := byKey;
          byKey := byKey[key := (if key in byKey then byKey[key] else []) + [Member(n, want)]];
          GroupedMore(rows, safe, before, n, key, Member(n, want));
      }
    }
  }

  /** The list of one key, up to row `n`. */
  ghost predicate ListOk(rows: seq<Row>, safe: string -> bool, key: string, ms: seq<Member>, n: nat) {
    && (forall j :: 0 <= j < |ms| ==> MemberOk(rows, safe, key, ms[j]) && ms[j].index < n)
    && (forall j, k :: 0 <= j < k < |ms| ==> ms[j].index < ms[k].index)
  }

  lemma GroupedMore(rows: seq<Row>, safe: string -> bool, byKey: map<string, seq<Member>>, n: nat, key: string,
      m: Member)
    requires n < |rows| && GroupedTo(rows, safe, byKey, n) && m.index == n && MemberOk(rows, safe, key, m)
    ensures GroupedTo(rows, safe, byKey[key := (if key in byKey then byKey[key] else []) + [m]], n + 1)
  {
    var before := if key in byKey then byKey[key] else [];
    var next := byKey[key := before + [m]];
    ListsMore(rows, safe, byKey, n, key, m);
    hide MemberOk, InList, ListOk;
    forall i | 0 <= i < n + 1
      ensures RowListed(next, ClassOf(rows[i], safe), i)
    {
      ListGrows(before, m, i);
      if i < n {
        assert RowListed(byKey, ClassOf(rows[i], safe), i);
      } else {
        MemberKey(rows, safe, key, m);
      }
    }
  }

  lemma ListsMore(rows: seq<Row>, safe: string -> bool, byKey: map<string, seq<Member>>, n: nat, key: string, m: Member)
    requires n < |rows| && GroupedTo(rows, safe, byKey, n) && m.index == n && MemberOk(rows, safe, key, m)
    ensures var next := byKey[key := (if key in byKey then byKey[key] else []) + [m]];
            forall k <- next :: next[k] != [] && ListOk(rows, safe, k, next[k], n + 1)
  {
    hide MemberOk, RowListed, ClassOf;
    var next := byKey[key := (if key in byKey then byKey[key] else []) + [m]];
    forall k | k in next
      ensures next[k] != [] && ListOk(rows, safe, k, next[k], n + 1)
    {
      assert k in byKey ==> ListOk(rows, safe, k, byKey[k], n);
    }
  }

  lemma MemberKey(rows: seq<Row>, safe: string -> bool, key: string, m: Member)
    requires MemberOk(rows, safe, key, m)
    ensures var c := ClassOf(rows[m.index], safe); c.Grouped? && GroupKey(c.url, c.ref) == key && m.want == c.want
  {
  }

  lemma ListGrows(ms: seq<Member>, m: Member, i: nat)
    ensures InList(ms, i) || m.index == i ==> InList(ms + [m], i)
  {
    if j :| 0 <= j < |ms| && ms[j].index == i {
      assert (ms + [m])[j].index == i;
    }
    assert (ms + [m])[|ms|] == m;
  }

  /** The groups in key order, each with the URL and ref of its first member. */
  function GroupsOf(rows: seq<Row>, safe: string -> bool, byKey: map<string, seq<Member>>): seq<Group>
    requires GroupedTo(rows, safe, byKey, |rows|)
  {
    var keys := Listed(byKey.Keys);
    seq(|keys|, i requires 0 <= i < |keys| => GroupFor(rows, safe, keys[i], byKey[keys[i]]))
  }

  function GroupFor(rows: seq<Row>, safe: string -> bool, key: string, ms: seq<Member>): Group
    requires ms != [] && ListOk(rows, safe, key, ms, |rows|)
  {
    MemberKey(rows, safe, key, ms[0]);
    var c := ClassOf(rows[ms[0].index], safe);
    Group(c.url, c.ref, ms)
  }

  /** A member's row is checkable at its group's source. */
  lemma MemberIsRight(rows: seq<Row>, safe: string -> bool, byKey: map<string, seq<Member>>, p: nat, j: nat)
    requires KeysClean(rows) && GroupedTo(rows, safe, byKey, |rows|) && p < |GroupsOf(rows, safe, byKey)|
    requires j < |GroupsOf(rows, safe, byKey)[p].members|
    ensures var g := GroupsOf(rows, safe, byKey)[p];
            g.members[j].index < |rows| && ClassOf(rows[g.members[j].index], safe) == Grouped(g.url, g.ref, g.members[j].want)
  {
    var key := Listed(byKey.Keys)[p];
    assert key in byKey && ListOk(rows, safe, key, byKey[key], |rows|);
    var ms := byKey[key];
    MemberKey(rows, safe, key, ms[0]);
    MemberKey(rows, safe, key, ms[j]);
    var c, d := ClassOf(rows[ms[0].index], safe), ClassOf(rows[ms[j].index], safe);
    KeyTells(c.url, c.ref, d.url, d.ref);
  }

  /** Every checkable row is in a group. */
  lemma RowIsGrouped(rows: seq<Row>, safe: string -> bool, byKey: map<string, seq<Member>>, i: nat)
    returns (p: nat, j: nat)
    requires GroupedTo(rows, safe, byKey, |rows|) && i < |rows| && ClassOf(rows[i], safe).Grouped?
    ensures var gs := GroupsOf(rows, safe, byKey); p < |gs| && j < |gs[p].members| && gs[p].members[j].index == i
  {
    var c := ClassOf(rows[i], safe);
    assert RowListed(byKey, c, i);
    var key := GroupKey(c.url, c.ref);
    var keys := Listed(byKey.Keys);
    assert key in keys;
    p :| 0 <= p < |keys| && keys[p] == key;
    j :| 0 <= j < |byKey[key]| && byKey[key][j].index == i;
  }

  /** Different groups have different sources. */
  lemma SourcesDiffer(rows: seq<Row>, safe: string -> bool, byKey: map<string, seq<Member>>, p: nat, q: nat)
    requires GroupedTo(rows, safe, byKey, |rows|) && p < q < |GroupsOf(rows, safe, byKey)|
    ensures var gs := GroupsOf(rows, safe, byKey); gs[p].url != gs[q].url || gs[p].ref != gs[q].ref
  {
    var keys := Listed(byKey.Keys);
    assert Less(keys[p], keys[q]);
    LessTotal(keys[p], keys[q]);
    assert ListOk(rows, safe, keys[p], byKey[keys[p]], |rows|) && ListOk(rows, safe, keys[q], byKey[keys[q]], |rows|);
    MemberKey(rows, safe, keys[p], byKey[keys[p]][0]);
    MemberKey(rows, safe, keys[q], byKey[keys[q]][0]);
  }

  /** A row that some update of the first `p` groups, or of the first `j` members of group `p`, names. */
  ghost predicate Updated(gs: seq<Group>, p: nat, j: nat, i: nat) {
    exists q, k {:trigger gs[q].members[k]} :: 0 <= q < |gs| && 0 <= k < |gs[q].members|
        && (q < p || (q == p && k < j)) && gs[q].members[k].index == i
  }

  ghost predicate MembersRight(gs: seq<Group>, rows: seq<Row>, safe: string -> bool) {
    forall q, k {:trigger gs[q].members[k]} :: 0 <= q < |gs| && 0 <= k < |gs[q].members| ==>
      gs[q].members[k].index < |rows| && ClassOf(rows[gs[q].members[k].index], safe) == Grouped(gs[q].url, gs[q].ref, gs[q].members[k].want)
  }

  /** The ordered results written into the rows. */
  method Merge(env: Env, gs: seq<Group>, rows: seq<Row>, safe: string -> bool, before: seq<Verdict>,
      ordered: map<nat, seq<Update>>)
    returns (out: seq<Verdict>)
    requires |before| == |rows| && MembersRight(gs, rows, safe)
    requires forall p :: 0 <= p < |gs| ==> p in ordered && ordered[p] == GroupResult(env, gs[p])
    ensures |out| == |rows|
    ensures forall i :: 0 <= i < |rows| ==>
              out[i] == if Updated(gs, |gs|, 0, i) then Expected(env, rows[i], safe) else before[i]
  {
    out := before;
    hide ClassOf, Expected, Judged;
    var p := 0;
    while p < |gs|
      invariant 0 <= p <= |gs| && |out| == |rows|
      invariant forall i :: 0 <= i < |rows| ==>
                out[i] == if Updated(gs, p, 0, i) then Expected(env, rows[i], safe) else before[i]
    {
      var updates := ordered[p];
      var j := 0;
      while j < |updates|
        invariant 0 <= j <= |updates| == |gs[p].members| && |out| == |rows|
        invariant forall i :: 0 <= i < |rows| ==>
                  out[i] == if Updated(gs, p, j, i) then Expected(env, rows[i], safe) else before[i]
      {
        UpdateIsExpected(env, gs, rows, safe, p, j);
        out := out[updates[j].index := updates[j].verdict];
        UpdatedNext(gs, p, j);
        j := j + 1;
      }
      UpdatedGroup(gs, p);
      p := p + 1;
    }
  }

  lemma UpdateIsExpected(env: Env, gs: seq<Group>, rows: seq<Row>, safe: string -> bool, p: nat, j: nat)
    requires p < |gs| && j < |gs[p].members| && MembersRight(gs, rows, safe)
    ensures var u := GroupResult(env, gs[p])[j];
            u.index == gs[p].members[j].index < |rows| && u.verdict == Expected(env, rows[u.index], safe)
  {
  }

  lemma UpdatedNext(gs: seq<Group>, p: nat, j: nat)
    requires p < |gs| && j < |gs[p].members|
    ensures forall i :: Updated(gs, p, j + 1, i) <==> Updated(gs, p, j, i) || i == gs[p].members[j].index
  {
    forall i
      ensures Updated(gs, p, j + 1, i) <==> Updated(gs, p, j, i) || i == gs[p].members[j].index
    {
      if i == gs[p].members[j].index {
        assert gs[p].members[j].index == i;
      }
    }
  }

  lemma UpdatedGroup(gs: seq<Group>, p: nat)
    requires p < |gs|
    ensures forall i :: Updated(gs, p + 1, 0, i) <==> Updated(gs, p, |gs[p].members|, i)
  {
  }

  const DEFAULT_WORKERS: nat := 4

  function Workers(asked: int, groups: nat): nat {
    var w := if asked <= 0 then DEFAULT_WORKERS else asked;
    if w > groups then groups else w
  }

  /** `checkUpdatesWith` under a schedule. When the pool has finished, each row has its row-by-row verdict,
      and each source of a checkable row was fetched exactly once. */
  method CheckUpdates(env: Env, rows: seq<Row>, safe: string -> bool, asked: int, schedule: seq<Actor>)
    returns (finished: bool, out: seq<Verdict>, ghost gs: seq<Group>, ghost clones: seq<nat>)
    requires KeysClean(rows)
    ensures finished <==> Final(Run(env, gs, Start(Workers(asked, |gs|)), schedule))
    ensures finished ==> |out| == |rows| && forall i :: 0 <= i < |rows| ==> out[i] == Expected(env, rows[i], safe)
    ensures finished ==> Distinct(clones) && (forall p: nat :: p in clones <==> p < |gs|)
    ensures forall p, q :: 0 <= p < q < |gs| ==> gs[p].url != gs[q].url || gs[p].ref != gs[q].ref
    ensures forall i :: 0 <= i < |rows| && ClassOf(rows[i], safe).Grouped? ==>
              exists p :: 0 <= p < |gs| && gs[p].url == ClassOf(rows[i], safe).url && gs[p].ref == ClassOf(rows[i], safe).ref
  {
    var before, byKey := GroupRows(rows, safe);
    var groups := GroupsOf(rows, safe, byKey);
    gs, clones := groups, [];
    GroupsAreRight(rows, safe, byKey);
    hide *;
    var s := Start(Workers(asked, |groups|));
    ghost var place := StartInv(env, groups, Workers(asked, |groups|));
    StartCrew(Workers(asked, |groups|));
    assert schedule[0..] == schedule;
    for n := 0 to |schedule|
      invariant Inv(env, groups, s, place) && |s.workers| == Workers(asked, |groups|)
      invariant Run(env, groups, s, schedule[n..]) == Run(env, groups, Start(Workers(asked, |groups|)), schedule)
    {
      RunNext(env, groups, s, schedule[n], schedule[n + 1..]);
      assert schedule[n..] == [schedule[n]] + schedule[n + 1..];
      var t := Act(env, groups, s, schedule[n]);
      if t.Some? {
        place := PoolStep(env, groups, s, place, schedule[n]);
        SameCrew(env, groups, s, schedule[n]);
        s := t.value;
      }
    }
    assert schedule[|schedule|..] == [];
    RunNone(env, groups, s);
    if !Final(s) {
      return false, before, gs, clones;
    }
    clones := s.clones;
    EndResults(env, groups, s, place, asked);
    out := Merge(env, groups, rows, safe, before, s.ordered);
    MergedIsExpected(env, rows, safe, groups, before, out);
    return true, out, gs, clones;
  }

  lemma StartCrew(workers: nat)
    ensures |Start(workers).workers| == workers
  {
  }

  lemma SameCrew(env: Env, gs: seq<Group>, s: State, a: Actor)
    requires Act(env, gs, s, a).Some?
    ensures |Act(env, gs, s, a).value.workers| == |s.workers|
  {
  }

  lemma EndResults(env: Env, gs: seq<Group>, s: State, place: seq<Place>, asked: int)
    requires Inv(env, gs, s, place) && Final(s) && |s.workers| == Workers(asked, |gs|)
    ensures forall p :: 0 <= p < |gs| ==> p in s.ordered && s.ordered[p] == GroupResult(env, gs[p])
    ensures Distinct(s.clones) && forall p: nat :: p in s.clones <==> p < |gs|
  {
    if gs != [] {
      FinalResults(env, gs, s, place);
    }
  }

  lemma GroupsAreRight(rows: seq<Row>, safe: string -> bool, byKey: map<string, seq<Member>>)
    requires KeysClean(rows) && GroupedTo(rows, safe, byKey, |rows|)
    ensures var gs := GroupsOf(rows, safe, byKey);
            && MembersRight(gs, rows, safe)
            && (forall i :: 0 <= i < |rows| && ClassOf(rows[i], safe).Grouped? ==> Updated(gs, |gs|, 0, i))
            && (forall p, q :: 0 <= p < q < |gs| ==> gs[p].url != gs[q].url || gs[p].ref != gs[q].ref)
            && (forall i :: 0 <= i < |rows| && ClassOf(rows[i], safe).Grouped? ==>
                  exists p :: 0 <= p < |gs| && gs[p].url == ClassOf(rows[i], safe).url && gs[p].ref == ClassOf(rows[i], safe).ref)
  {
    var gs := GroupsOf(rows, safe, byKey);
    forall q, k {:trigger gs[q].members[k]} | 0 <= q < |gs| && 0 <= k < |gs[q].members|
      ensures gs[q].members[k].index < |rows|
      ensures ClassOf(rows[gs[q].members[k].index], safe) == Grouped(gs[q].url, gs[q].ref, gs[q].members[k].want)
    {
      MemberIsRight(rows, safe, byKey, q, k);
    }
    forall i | 0 <= i < |rows| && ClassOf(rows[i], safe).Grouped?
      ensures Updated(gs, |gs|, 0, i)
      ensures exists p :: 0 <= p < |gs| && gs[p].url == ClassOf(rows[i], safe).url && gs[p].ref == ClassOf(rows[i], safe).ref
    {
      var p, j := RowIsGrouped(rows, safe, byKey, i);
      assert gs[p].members[j].index == i;
      MemberIsRight(rows, safe, byKey, p, j);
    }
    forall p, q | 0 <= p < q < |gs|
      ensures gs[p].url != gs[q].url || gs[p].ref != gs[q].ref
    {
      SourcesDiffer(rows, safe, byKey, p, q);
    }
  }

  lemma MergedIsExpected(env: Env, rows: seq<Row>, safe: string -> bool, gs: seq<Group>, before: seq<Verdict>,
      out: seq<Verdict>)
    requires |before| == |rows| == |out| && MembersRight(gs, rows, safe)
    requires forall i :: 0 <= i < |rows| ==> before[i] == Undecided(rows[i], safe)
    requires forall i :: 0 <= i < |rows| ==>
              out[i] == if Updated(gs, |gs|, 0, i) then Expected(env, rows[i], safe) else before[i]
    requires forall i :: 0 <= i < |rows| && ClassOf(rows[i], safe).Grouped? ==> Updated(gs, |gs|, 0, i)
    ensures forall i :: 0 <= i < |rows| ==> out[i] == Expected(env, rows[i], safe)
  {
    hide Judged, Updated, MembersRight;
  }
}
