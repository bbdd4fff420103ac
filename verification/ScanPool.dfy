/**
 The inventory scan as a worker pool with shared, cached reads (internal/agentmcp/scanner.go:224-331 and
 510-535), without cancellation. A read is a promise: the first worker that asks for a file reads it, the
 others wait for it.
 */
module ScanPool {
  import opened Options
  import opened FileTree

  /** A file, as the cache knows it: its path and project root. */
  datatype Key = Key(path: string, root: string)

  /** A declaration or a diagnostic. */
  type Row = string

  /** One source: its file, the approval files to read when it is present, and what is made of them. */
  datatype Source = Source(main: Key, approvals: seq<Key>, present: Bytes -> bool, decode: (Bytes, seq<Bytes>) -> seq<Row>) {
    function more(data: Bytes): seq<Key> {
      if present(data) then approvals else []
    }
  }

  /** The sources of each target, in order. */
  type Jobs = seq<seq<Source>>

  /** What a read returns may depend on how many reads came before it: files may change meanwhile. */
  type Files = (Key, nat) -> Bytes

  datatype Worker =
    | Ready
    | Scanning(job: nat, k: nat, got: seq<Bytes>)
    | Fetching(job: nat, k: nat, got: seq<Bytes>, key: Key)
    | Awaiting(job: nat, k: nat, got: seq<Bytes>, key: Key)
    | Exited

  /** A promise is pending (None) or kept. */
  type Cache = map<Key, Option<Bytes>>

  /** `offered` counts the jobs handed to workers; `fetched` lists the files read, in order. */
  datatype State = State(offered: nat, workers: seq<Worker>, cache: Cache, fetched: seq<Key>, results: seq<seq<Row>>)

  /** The next file a source needs, None when it has all. */
  function NextKey(src: Source, got: seq<Bytes>): Option<Key> {
    if got == [] then Some(src.main)
    else if |got| - 1 < |src.more(got[0])| then Some(src.more(got[0])[|got| - 1])
    else None
  }

  function WithWorker(s: State, w: nat, x: Worker): State
    requires w < |s.workers|
  {
    s.(workers := s.workers[w := x])
  }

  /** One step of one worker, None if it has to wait or has exited. Handing over a job is a step of the
      worker that takes it: the sender only offers. */
  function Act(disk: Files, jobs: Jobs, s: State, w: nat): Option<State> {
    if w >= |s.workers| then None
    else
      match s.workers[w]
      case Ready =>
        if s.offered < |jobs| then Some(WithWorker(s.(offered := s.offered + 1), w, Scanning(s.offered, 0, [])))
        else Some(WithWorker(s, w, Exited))
      case Scanning(job, k, got) =>
        if job >= |jobs| || job >= |s.results| then None
        else if k >= |jobs[job]| then Some(WithWorker(s, w, Ready))
        else
          var src := jobs[job][k];
          (match NextKey(src, got)
           case None =>
             Some(WithWorker(s.(results := s.results[job := s.results[job] + src.decode(got[0], got[1..])]), w, Scanning(job, k + 1, [])))
           case Some(key) =>
             if key in s.cache then Some(WithWorker(s, w, Awaiting(job, k, got, key)))
             else Some(WithWorker(s.(cache := s.cache[key := None]), w, Fetching(job, k, got, key))))
      case Fetching(job, k, got, key) =>
        var data := disk(key, |s.fetched|);
        Some(WithWorker(s.(cache := s.cache[key := Some(data)], fetched := s.fetched + [key]), w, Scanning(job, k, got + [data])))
      case Awaiting(job, k, got, key) =>
        if key in s.cache && s.cache[key].Some? then Some(WithWorker(s, w, Scanning(job, k, got + [s.cache[key].value]))) else None
      case Exited => None
  }

  function Run(disk: Files, jobs: Jobs, s: State, schedule: seq<nat>): State
    decreases |schedule|
  {
    if schedule == [] then s
    else
      match Act(disk, jobs, s, schedule[0])
      case Some(t) => Run(disk, jobs, t, schedule[1..])
      case None => Run(disk, jobs, s, schedule[1..])
  }

  predicate Final(s: State) {
    forall w :: 0 <= w < |s.workers| ==> s.workers[w].Exited?
  }

  // What the results mean, given what was read.

  /** Everything the source needs has been read. */
  predicate Read(cache: Cache, src: Source) {
    && src.main in cache && cache[src.main].Some?
    && forall key <- src.more(cache[src.main].value) :: key in cache && cache[key].Some?
  }

  function Values(cache: Cache, keys: seq<Key>): seq<Bytes>
    requires forall key <- keys :: key in cache && cache[key].Some?
  {
    seq(|keys|, i requires 0 <= i < |keys| => cache[keys[i]].value)
  }

  /** The rows of one source from what was read. */
  function RowsOf(cache: Cache, src: Source): seq<Row>
    requires Read(cache, src)
  {
    var main := cache[src.main].value;
    src.decode(main, Values(cache, src.more(main)))
  }

  /** The rows of the first `k` sources of a target. */
  function RowsTo(cache: Cache, srcs: seq<Source>, k: nat): seq<Row>
    requires k <= |srcs| && forall j :: 0 <= j < k ==> Read(cache, srcs[j])
  {
    if k == 0 then [] else RowsTo(cache, srcs, k - 1) + RowsOf(cache, srcs[k - 1])
  }

  /** The `i`-th further value is that of the `i`-th further file. */
  predicate GotAt(cache: Cache, keys: seq<Key>, got: seq<Bytes>, i: nat) {
    i < |keys| && i + 1 < |got| && keys[i] in cache && cache[keys[i]] == Some(got[i + 1])
  }

  /** What a worker holds of a source so far is what was read. */
  predicate GotOk(cache: Cache, src: Source, got: seq<Bytes>) {
    got != [] ==>
      && src.main in cache && cache[src.main] == Some(got[0]) && |got| - 1 <= |src.more(got[0])|
      && forall i {:trigger GotAt(cache, src.more(got[0]), got, i)} :: 0 <= i < |got| - 1 ==> GotAt(cache, src.more(got[0]), got, i)
  }

  /** `now` keeps every promise kept in `before`. */
  predicate Grows(before: Cache, now: Cache) {
    forall key <- before :: key in now && (before[key].Some? ==> now[key] == before[key])
  }

  lemma GrowsRead(a: Cache, b: Cache, src: Source)
    requires Grows(a, b) && Read(a, src)
    ensures Read(b, src) && RowsOf(b, src) == RowsOf(a, src)
  {
    assert b[src.main] == a[src.main];
    var keys := src.more(a[src.main].value);
    forall key | key in keys
      ensures key in b && b[key] == a[key]
    {
    }
    assert Values(b, keys) == Values(a, keys);
  }

  lemma {:induction false} GrowsRows(a: Cache, b: Cache, srcs: seq<Source>, k: nat)
    requires Grows(a, b) && k <= |srcs| && forall j :: 0 <= j < k ==> Read(a, srcs[j])
    ensures (forall j :: 0 <= j < k ==> Read(b, srcs[j])) && RowsTo(b, srcs, k) == RowsTo(a, srcs, k)
  {
    if k > 0 {
      GrowsRows(a, b, srcs, k - 1);
      GrowsRead(a, b, srcs[k - 1]);
    }
  }

  lemma GrowsGot(a: Cache, b: Cache, src: Source, got: seq<Bytes>)
    requires Grows(a, b) && GotOk(a, src, got)
    ensures GotOk(b, src, got)
  {
    if got != [] {
      var keys := src.more(got[0]);
      forall i {:trigger GotAt(b, keys, got, i)} | 0 <= i < |got| - 1
        ensures GotAt(b, keys, got, i)
      {
        assert GotAt(a, keys, got, i);
      }
    }
  }

  /** A source with everything in hand yields its rows. */
  lemma GotIsRows(cache: Cache, src: Source, got: seq<Bytes>)
    requires GotOk(cache, src, got) && got != [] && NextKey(src, got) == None
    ensures Read(cache, src) && RowsOf(cache, src) == src.decode(got[0], got[1..])
  {
    var keys := src.more(got[0]);
    forall key | key in keys
      ensures key in cache && cache[key].Some?
    {
      var i :| 0 <= i < |keys| && keys[i] == key;
      assert GotAt(cache, keys, got, i);
    }
    forall i | 0 <= i < |keys|
      ensures Values(cache, keys)[i] == got[1..][i]
    {
      assert GotAt(cache, keys, got, i);
    }
    assert Values(cache, keys) == got[1..];
  }

  /** One more value in hand. */
  lemma GotMore(cache: Cache, src: Source, got: seq<Bytes>, key: Key, data: Bytes)
    requires GotOk(cache, src, got) && NextKey(src, got) == Some(key) && key in cache && cache[key] == Some(data)
    ensures GotOk(cache, src, got + [data])
  {
    if got != [] {
      var keys := src.more(got[0]);
      forall i {:trigger GotAt(cache, keys, got + [data], i)} | 0 <= i < |got|
        ensures GotAt(cache, keys, got + [data], i)
      {
        assert i < |got| - 1 ==> GotAt(cache, keys, got, i);
      }
    }
  }

  // The invariant.

  datatype Place = Waiting | With(w: nat) | Finished

  predicate Busy(x: Worker) { x.Scanning? || x.Fetching? || x.Awaiting? }

  ghost predicate WorkerOk(jobs: Jobs, s: State, x: Worker) {
    Busy(x) ==>
      && x.job < |jobs| == |s.results| && x.k <= |jobs[x.job]|
      && (forall j :: 0 <= j < x.k ==> Read(s.cache, jobs[x.job][j])) && s.results[x.job] == RowsTo(s.cache, jobs[x.job], x.k)
      && (x.k == |jobs[x.job]| ==> x.Scanning? && x.got == [])
      && (x.k < |jobs[x.job]| ==> GotOk(s.cache, jobs[x.job][x.k], x.got))
      && (x.Fetching? ==> NextKey(jobs[x.job][x.k], x.got) == Some(x.key) && x.key in s.cache && s.cache[x.key] == None)
      && (x.Awaiting? ==> NextKey(jobs[x.job][x.k], x.got) == Some(x.key) && x.key in s.cache)
  }

  ghost predicate PlaceOk(jobs: Jobs, s: State, place: seq<Place>, p: nat)
    requires p < |place| == |jobs| == |s.results|
  {
    match place[p]
    case Waiting => p >= s.offered && s.results[p] == []
    case With(w) => p < s.offered && w < |s.workers| && Busy(s.workers[w]) && s.workers[w].job == p
    case Finished => p < s.offered && (forall j :: 0 <= j < |jobs[p]| ==>
        Read(s.cache, jobs[p][j])) && s.results[p] == RowsTo(s.cache, jobs[p], |jobs[p]|)
  }

  predicate Distinct(ks: seq<Key>) {
    forall i, j :: 0 <= i < j < |ks| ==> ks[i] != ks[j]
  }

  /** A pending promise has the worker that will keep it. */
  ghost predicate PromiseOk(s: State, key: Key)
    requires key in s.cache
  {
    s.cache[key] == None ==> exists w :: 0 <= w < |s.workers| && s.workers[w].Fetching? && s.workers[w].key == key
  }

  /** The promises kept are those of the files read. */
  ghost predicate KeptAreFetched(s: State) {
    && (forall key :: key in s.fetched ==> key in s.cache && s.cache[key].Some?)
    && (forall key <- s.cache :: s.cache[key].Some? ==> key in s.fetched)
  }

  ghost predicate Inv(jobs: Jobs, s: State, place: seq<Place>) {
    && s.offered <= |jobs| == |place| == |s.results|
    && (forall p {:trigger PlaceOk(jobs, s, place, p)} :: 0 <= p < |jobs| ==> PlaceOk(jobs, s, place, p))
    && (forall w :: 0 <= w < |s.workers| ==>
          WorkerOk(jobs, s, s.workers[w]) && (Busy(s.workers[w]) ==>
              place[s.workers[w].job] == With(w)) && (s.workers[w].Exited? ==> s.offered == |jobs|))
    && (forall key {:trigger PromiseOk(s, key)} :: key in s.cache ==> PromiseOk(s, key))
    && (forall w, v :: 0 <= w < v < |s.workers| && s.workers[w].Fetching? && s.workers[v].Fetching? ==>
          s.workers[w].key != s.workers[v].key)
    && Distinct(s.fetched) && KeptAreFetched(s)
  }

  /** A cache with every promise kept. */
  ghost predicate Settled(cache: Cache, fetched: seq<Key>) {
    (forall key :: key in fetched <==> key in cache) && forall key <- cache :: cache[key].Some?
  }

  lemma StartInv(jobs: Jobs, workers: nat, cache: Cache, fetched: seq<Key>) returns (place: seq<Place>)
    requires Distinct(fetched) && Settled(cache, fetched)
    ensures Inv(jobs, Start(jobs, workers, cache, fetched), place)
  {
    place := seq(|jobs|, _ => Waiting);
    var s := Start(jobs, workers, cache, fetched);
    forall p {:trigger PlaceOk(jobs, s, place, p)} | 0 <= p < |jobs|
      ensures PlaceOk(jobs, s, place, p)
    {
    }
  }

  function Start(jobs: Jobs, workers: nat, cache: Cache, fetched: seq<Key>): State {
    State(0, seq(workers, _ => Ready), cache, fetched, seq(|jobs|, _ => []))
  }

  /** A worker that does not move stays right while promises are only made and kept. */
  lemma WorkerStays(jobs: Jobs, s: State, t: State, x: Worker)
    requires WorkerOk(jobs, s, x) && Grows(s.cache, t.cache) && |t.results| == |s.results|
    requires Busy(x) ==> t.results[x.job] == s.results[x.job]
    requires x.Fetching? && x.key in s.cache && s.cache[x.key] == None ==> x.key in t.cache && t.cache[x.key] == None
    ensures WorkerOk(jobs, t, x)
  {
    if Busy(x) {
      GrowsRows(s.cache, t.cache, jobs[x.job], x.k);
      if x.k < |jobs[x.job]| {
        GrowsGot(s.cache, t.cache, jobs[x.job][x.k], x.got);
      }
    }
  }

  /** A finished target stays finished. */
  lemma FinishedStays(jobs: Jobs, s: State, t: State, place: seq<Place>, p: nat)
    requires p < |place| == |jobs| == |s.results| == |t.results| && place[p].Finished? && PlaceOk(jobs, s, place, p)
    requires Grows(s.cache, t.cache) && t.results[p] == s.results[p] && s.offered <= t.offered
    ensures PlaceOk(jobs, t, place, p)
  {
    GrowsRows(s.cache, t.cache, jobs[p], |jobs[p]|);
  }

  /** What a step of worker `w` may change: itself, one target's rows, and promises. */
  ghost predicate Local(jobs: Jobs, s: State, t: State, w: nat) {
    && w < |s.workers| == |t.workers| && |t.results| == |s.results| == |jobs| && s.offered <= t.offered <= |jobs| && Grows(s.cache, t.cache)
    && (forall v :: 0 <= v < |s.workers| && v != w ==> t.workers[v] == s.workers[v])
    && (forall p :: 0 <= p < |jobs| && !(Busy(s.workers[w]) && s.workers[w].job == p) ==> t.results[p] == s.results[p])
    && (forall key <- s.cache :: s.cache[key] == None && t.cache[key] != None ==> s.workers[w].Fetching? && s.workers[w].key == key)
    && (forall key <- t.cache :: t.cache[key] == None ==>
          (key in s.cache && s.cache[key] == None
              && !(s.workers[w].Fetching? && s.workers[w].key == key)) || (t.workers[w].Fetching? && t.workers[w].key == key))
    && (t.workers[w].Fetching? ==> t.workers[w].key !in s.cache)
  }

  /** The bookkeeping every step shares: it remains to look at the worker that moved and the places. */
  lemma StepFolds(jobs: Jobs, s: State, t: State, place: seq<Place>, place': seq<Place>, w: nat)
    requires Inv(jobs, s, place) && Local(jobs, s, t, w) && |place'| == |place|
    requires WorkerOk(jobs, t, t.workers[w]) && (Busy(t.workers[w]) ==> place'[t.workers[w].job] == With(w))
    requires (t.workers[w].Exited? ==> t.offered == |jobs|)
    requires forall p :: 0 <= p < |jobs| && place'[p] != place[p] ==>
              PlaceOk(jobs, t, place', p) && (place[p] == Waiting || place[p] == With(w))
    requires forall p :: 0 <= p < |jobs| && place'[p] == place[p] == With(w) ==>
              Busy(t.workers[w]) && t.workers[w].job == p
    requires forall p :: s.offered <= p < t.offered ==> place'[p] != Waiting
    requires Distinct(t.fetched) && KeptAreFetched(t)
    ensures Inv(jobs, t, place')
  {
    forall p {:trigger PlaceOk(jobs, t, place', p)} | 0 <= p < |jobs|
      ensures PlaceOk(jobs, t, place', p)
    {
      if place'[p] == place[p] {
        assert PlaceOk(jobs, s, place, p);
        if place[p].Finished? {
          FinishedPlace(jobs, s, t, place, place', p, w);
        }
      }
    }
    forall v | 0 <= v < |t.workers|
      ensures WorkerOk(jobs, t, t.workers[v]) && (Busy(t.workers[v]) ==> place'[t.workers[v].job] == With(v))
      ensures (t.workers[v].Exited? ==> t.offered == |jobs|)
    {
      if v != w {
        OtherWorker(jobs, s, t, place, place', w, v);
      }
    }
    Promises(jobs, s, t, place, w);
  }

  lemma FinishedPlace(jobs: Jobs, s: State, t: State, place: seq<Place>, place': seq<Place>, p: nat, w: nat)
    requires Inv(jobs, s, place) && Local(jobs, s, t, w) && |place'| == |place| && p < |jobs|
    requires place'[p] == place[p] == Finished && PlaceOk(jobs, s, place, p)
    ensures PlaceOk(jobs, t, place', p)
  {
    assert WorkerOk(jobs, s, s.workers[w]);
    FinishedStays(jobs, s, t, place, p);
  }

  lemma OtherWorker(jobs: Jobs, s: State, t: State, place: seq<Place>, place': seq<Place>, w: nat, v: nat)
    requires Inv(jobs, s, place) && Local(jobs, s, t, w) && |place'| == |place| && v < |s.workers| && v != w
    requires forall p :: 0 <= p < |jobs| && place'[p] != place[p] ==> place[p] == Waiting || place[p] == With(w)
    ensures WorkerOk(jobs, t, t.workers[v]) && (Busy(t.workers[v]) ==> place'[t.workers[v].job] == With(v))
    ensures (t.workers[v].Exited? ==> t.offered == |jobs|)
  {
    assert WorkerOk(jobs, s, s.workers[v]) && WorkerOk(jobs, s, s.workers[w]);
    WorkerStays(jobs, s, t, s.workers[v]);
  }

  lemma Promises(jobs: Jobs, s: State, t: State, place: seq<Place>, w: nat)
    requires Inv(jobs, s, place) && Local(jobs, s, t, w)
    ensures forall key {:trigger PromiseOk(t, key)} :: key in t.cache ==> PromiseOk(t, key)
    ensures forall u, v :: 0 <= u < v < |t.workers| && t.workers[u].Fetching? && t.workers[v].Fetching? ==>
              t.workers[u].key != t.workers[v].key
  {
    forall key {:trigger PromiseOk(t, key)} | key in t.cache
      ensures PromiseOk(t, key)
    {
      if t.cache[key] == None {
        if t.workers[w].Fetching? && t.workers[w].key == key {
        } else {
          assert PromiseOk(s, key);
          var v :| 0 <= v < |s.workers| && s.workers[v].Fetching? && s.workers[v].key == key;
          assert t.workers[v].Fetching? && t.workers[v].key == key;
        }
      }
    }
    forall u, v | 0 <= u < v < |t.workers| && t.workers[u].Fetching? && t.workers[v].Fetching?
      ensures t.workers[u].key != t.workers[v].key
    {
      assert WorkerOk(jobs, s, s.workers[u]) && WorkerOk(jobs, s, s.workers[v]);
    }
  }

  lemma TakeStep(files: Files, jobs: Jobs, s: State, place: seq<Place>, w: nat)
    requires Inv(jobs, s, place) && w < |s.workers| && s.workers[w].Ready?
    ensures Inv(jobs, Act(files, jobs, s, w).value, if s.offered < |jobs| then place[s.offered := With(w)] else place)
  {
    var t, place' := Act(files, jobs, s, w).value, if s.offered < |jobs| then place[s.offered := With(w)] else place;
    if s.offered < |jobs| {
      assert PlaceOk(jobs, s, place, s.offered);
    }
    forall p | 0 <= p < |jobs|
      ensures place[p] != With(w)
    {
      assert PlaceOk(jobs, s, place, p);
    }
    hide Read, RowsOf;
    StepFolds(jobs, s, t, place, place', w);
  }

  lemma FinishStep(files: Files, jobs: Jobs, s: State, place: seq<Place>, w: nat)
    requires Inv(jobs, s, place) && w < |s.workers| && s.workers[w].Scanning? && s.workers[w].k >= |jobs[s.workers[w].job]|
    ensures Act(files, jobs, s, w).Some? && Inv(jobs, Act(files, jobs, s, w).value, place[s.workers[w].job := Finished])
  {
    var x := s.workers[w];
    assert WorkerOk(jobs, s, x) && PlaceOk(jobs, s, place, x.job);
    var t := Act(files, jobs, s, w).value;
    hide Read, RowsOf;
    OneJob(jobs, s, place, w);
    StepFolds(jobs, s, t, place, place[x.job := Finished], w);
  }

  /** A busy worker's target is the only one with it. */
  lemma OneJob(jobs: Jobs, s: State, place: seq<Place>, w: nat)
    requires Inv(jobs, s, place) && w < |s.workers| && Busy(s.workers[w])
    ensures forall p :: 0 <= p < |jobs| && place[p] == With(w) ==> s.workers[w].job == p
  {
    forall p | 0 <= p < |jobs| && place[p] == With(w)
      ensures s.workers[w].job == p
    {
      assert PlaceOk(jobs, s, place, p);
    }
  }

  lemma SourceStep(files: Files, jobs: Jobs, s: State, place: seq<Place>, w: nat)
    requires Inv(jobs, s, place) && w < |s.workers| && s.workers[w].Scanning? && s.workers[w].k < |jobs[s.workers[w].job]|
    requires NextKey(jobs[s.workers[w].job][s.workers[w].k], s.workers[w].got) == None
    ensures Act(files, jobs, s, w).Some? && Inv(jobs, Act(files, jobs, s, w).value, place)
  {
    var x := s.workers[w];
    assert WorkerOk(jobs, s, x) && PlaceOk(jobs, s, place, x.job);
    var t := Act(files, jobs, s, w).value;
    GotIsRows(s.cache, jobs[x.job][x.k], x.got);
    OneJob(jobs, s, place, w);
    hide Read, RowsOf;
    StepFolds(jobs, s, t, place, place, w);
  }

  lemma AskStep(files: Files, jobs: Jobs, s: State, place: seq<Place>, w: nat)
    requires Inv(jobs, s, place) && w < |s.workers| && s.workers[w].Scanning? && s.workers[w].k < |jobs[s.workers[w].job]|
    requires NextKey(jobs[s.workers[w].job][s.workers[w].k], s.workers[w].got).Some?
    ensures Act(files, jobs, s, w).Some? && Inv(jobs, Act(files, jobs, s, w).value, place)
  {
    var x := s.workers[w];
    assert WorkerOk(jobs, s, x) && PlaceOk(jobs, s, place, x.job);
    var t := Act(files, jobs, s, w).value;
    OneJob(jobs, s, place, w);
    GrowsRows(s.cache, t.cache, jobs[x.job], x.k);
    GrowsGot(s.cache, t.cache, jobs[x.job][x.k], x.got);
    hide Read, RowsOf, GotOk, NextKey;
    StepFolds(jobs, s, t, place, place, w);
  }

  lemma FetchStep(files: Files, jobs: Jobs, s: State, place: seq<Place>, w: nat)
    requires Inv(jobs, s, place) && w < |s.workers| && s.workers[w].Fetching?
    ensures Act(files, jobs, s, w).Some? && Inv(jobs, Act(files, jobs, s, w).value, place)
  {
    var x := s.workers[w];
    assert WorkerOk(jobs, s, x) && PlaceOk(jobs, s, place, x.job);
    var t := Act(files, jobs, s, w).value;
    OneJob(jobs, s, place, w);
    GrowsRows(s.cache, t.cache, jobs[x.job], x.k);
    GrowsGot(s.cache, t.cache, jobs[x.job][x.k], x.got);
    GotMore(t.cache, jobs[x.job][x.k], x.got, x.key, files(x.key, |s.fetched|));
    assert x.key !in s.fetched;
    hide Read, RowsOf, GotOk, NextKey;
    StepFolds(jobs, s, t, place, place, w);
  }

  lemma AwaitStep(files: Files, jobs: Jobs, s: State, place: seq<Place>, w: nat)
    requires Inv(jobs, s, place) && w < |s.workers| && s.workers[w].Awaiting? && Act(files, jobs, s, w).Some?
    ensures Inv(jobs, Act(files, jobs, s, w).value, place)
  {
    var x := s.workers[w];
    assert WorkerOk(jobs, s, x) && PlaceOk(jobs, s, place, x.job);
    var t := Act(files, jobs, s, w).value;
    OneJob(jobs, s, place, w);
    GotMore(s.cache, jobs[x.job][x.k], x.got, x.key, s.cache[x.key].value);
    hide Read, RowsOf, GotOk, NextKey;
    StepFolds(jobs, s, t, place, place, w);
  }

  /** Every step of every worker keeps the invariant. */
  lemma PoolStep(files: Files, jobs: Jobs, s: State, place: seq<Place>, w: nat) returns (place': seq<Place>)
    requires Inv(jobs, s, place) && Act(files, jobs, s, w).Some?
    ensures Inv(jobs, Act(files, jobs, s, w).value, place') && |Act(files, jobs, s, w).value.workers| == |s.workers|
  {
    place' := place;
    var x := s.workers[w];
    assert WorkerOk(jobs, s, x);
    match x
    case Ready =>
      place' := if s.offered < |jobs| then place[s.offered := With(w)] else place;
      TakeStep(files, jobs, s, place, w);
    case Scanning(job, k, got) =>
      if k >= |jobs[job]| {
        place' := place[job := Finished];
        FinishStep(files, jobs, s, place, w);
      } else if NextKey(jobs[job][k], got) == None {
        SourceStep(files, jobs, s, place, w);
      } else {
        AskStep(files, jobs, s, place, w);
      }
    case Fetching(_, _, _, _) => FetchStep(files, jobs, s, place, w);
    case Awaiting(_, _, _, _) => AwaitStep(files, jobs, s, place, w);
  }

  /** No deadlock: while a worker is left, some worker can step. One that waits for a promise waits for a
      worker that is reading and waits for nobody. */
  lemma NeverStuck(files: Files, jobs: Jobs, s: State, place: seq<Place>) returns (w: nat)
    requires Inv(jobs, s, place) && !Final(s)
    ensures Act(files, jobs, s, w).Some?
  {
    w :| 0 <= w < |s.workers| && !s.workers[w].Exited?;
    assert WorkerOk(jobs, s, s.workers[w]);
    if s.workers[w].Awaiting? && s.cache[s.workers[w].key] == None {
      assert PromiseOk(s, s.workers[w].key);
      w :| 0 <= w < |s.workers| && s.workers[w].Fetching?;
      assert WorkerOk(jobs, s, s.workers[w]);
    }
  }

  function Cost(src: Source): nat {
    2 * (1 + |src.approvals|) + 1
  }

  function CostFrom(srcs: seq<Source>, k: nat): nat
    decreases |srcs| - k
  {
    if k >= |srcs| then 0 else Cost(srcs[k]) + CostFrom(srcs, k + 1)
  }

  function JobsFrom(jobs: Jobs, p: nat): nat
    decreases |jobs| - p
  {
    if p >= |jobs| then 0 else CostFrom(jobs[p], 0) + 2 + JobsFrom(jobs, p + 1)
  }

  function Minus(a: nat, b: nat): nat { if a > b then a - b else 0 }

  function Left(jobs: Jobs, x: Worker): nat {
    match x
    case Ready => 1
    case Exited => 0
    case Scanning(job, k, got) => 2 + if job < |jobs| then Minus(CostFrom(jobs[job], k), 2 * |got|) else 0
    case Fetching(job, k, got, _) => 2 + if job < |jobs| then Minus(CostFrom(jobs[job], k), 2 * |got| + 1) else 0
    case Awaiting(job, k, got, _) => 2 + if job < |jobs| then Minus(CostFrom(jobs[job], k), 2 * |got| + 1) else 0
  }

  function LeftAll(jobs: Jobs, ws: seq<Worker>): nat {
    if ws == [] then 0 else Left(jobs, ws[0]) + LeftAll(jobs, ws[1..])
  }

  function Potential(jobs: Jobs, s: State): nat {
    JobsFrom(jobs, s.offered) + LeftAll(jobs, s.workers)
  }

  lemma {:induction false} LeftUpdate(jobs: Jobs, ws: seq<Worker>, w: nat, x: Worker)
    requires w < |ws|
    ensures LeftAll(jobs, ws[w := x]) + Left(jobs, ws[w]) == LeftAll(jobs, ws) + Left(jobs, x)
  {
    hide Left;
    if w > 0 {
      LeftUpdate(jobs, ws[1..], w - 1, x);
      assert ws[w := x][1..] == ws[1..][w - 1 := x];
    } else {
      assert ws[w := x][1..] == ws[1..];
    }
  }

  /** Every step uses up some of a bound fixed at the start. */
  lemma StepUsesUp(files: Files, jobs: Jobs, s: State, place: seq<Place>, w: nat)
    requires Inv(jobs, s, place) && Act(files, jobs, s, w).Some?
    ensures Potential(jobs, Act(files, jobs, s, w).value) < Potential(jobs, s)
  {
    hide *;
    var t := Act(files, jobs, s, w).value;
    WorkerUsesUp(files, jobs, s, place, w);
    LeftUpdate(jobs, s.workers, w, t.workers[w]);
    PotentialIs(jobs, s);
    PotentialIs(jobs, t);
  }

  /** From every reachable state some schedule finishes the pool. */
  lemma {:induction false} Finishes(files: Files, jobs: Jobs, s: State, place: seq<Place>) returns (schedule: seq<nat>)
    requires Inv(jobs, s, place)
    ensures Final(Run(files, jobs, s, schedule))
    decreases Potential(jobs, s)
  {
    hide *;
    if Final(s) {
      schedule := [];
      RunNone(files, jobs, s);
    } else {
      var w := NeverStuck(files, jobs, s, place);
      StepUsesUp(files, jobs, s, place, w);
      var place' := PoolStep(files, jobs, s, place, w);
      var rest := Finishes(files, jobs, Act(files, jobs, s, w).value, place');
      schedule := [w] + rest;
      RunNext(files, jobs, s, w, rest);
    }
  }

  lemma RunNone(files: Files, jobs: Jobs, s: State)
    ensures Run(files, jobs, s, []) == s
  {
  }

  lemma RunNext(files: Files, jobs: Jobs, s: State, w: nat, rest: seq<nat>)
    ensures Run(files, jobs, s, [w] + rest) == if Act(files, jobs, s, w).Some? then Run(files, jobs,
              Act(files, jobs, s, w).value, rest) else Run(files, jobs, s, rest)
  {
    assert ([w] + rest)[0] == w && ([w] + rest)[1..] == rest;
    hide Act;
  }

  lemma PotentialIs(jobs: Jobs, s: State)
    ensures Potential(jobs, s) == JobsFrom(jobs, s.offered) + LeftAll(jobs, s.workers)
  {
  }

  lemma WorkerUsesUp(files: Files, jobs: Jobs, s: State, place: seq<Place>, w: nat)
    requires Inv(jobs, s, place) && Act(files, jobs, s, w).Some?
    ensures var t := Act(files, jobs, s, w).value;
            && w < |s.workers| == |t.workers| && t.workers == s.workers[w := t.workers[w]]
            && JobsFrom(jobs, t.offered) + Left(jobs, t.workers[w]) < JobsFrom(jobs, s.offered) + Left(jobs, s.workers[w])
  {
    var x := s.workers[w];
    assert WorkerOk(jobs, s, x);
    if Busy(x) && x.k < |jobs[x.job]| {
      GotSize(s.cache, jobs[x.job][x.k], x.got);
      assert CostFrom(jobs[x.job], x.k) == Cost(jobs[x.job][x.k]) + CostFrom(jobs[x.job], x.k + 1);
    }
    hide Read, RowsOf, GotOk, Inv, RowsTo, Grows, WorkerOk;
  }

  lemma GotSize(cache: Cache, src: Source, got: seq<Bytes>)
    requires GotOk(cache, src, got)
    ensures |got| <= 1 + |src.approvals|
    ensures NextKey(src, got).Some? ==> |got| < 1 + |src.approvals|
  {
  }

  /** At the end each target has the rows of all its sources from the files as they were read, whoever
      read them, and no file was read twice. */
  lemma FinalResults(jobs: Jobs, s: State, place: seq<Place>)
    requires Inv(jobs, s, place) && Final(s) && (s.workers != [] || jobs == [])
    ensures |s.results| == |jobs| && Distinct(s.fetched)
    ensures forall p :: 0 <= p < |jobs| ==>
              (forall j :: 0 <= j < |jobs[p]| ==> Read(s.cache, jobs[p][j])) && s.results[p] == RowsTo(s.cache, jobs[p], |jobs[p]|)
  {
    assert s.workers != [] ==> s.workers[0].Exited?;
    forall p | 0 <= p < |jobs|
      ensures (forall j :: 0 <= j < |jobs[p]| ==> Read(s.cache, jobs[p][j])) && s.results[p] == RowsTo(s.cache, jobs[p], |jobs[p]|)
    {
      assert PlaceOk(jobs, s, place, p);
    }
  }

  // Stable files: the scan against the direct reading.

  predicate Stable(files: Files, cache: Cache) {
    forall key <- cache :: cache[key].Some? ==> cache[key] == Some(files(key, 0))
  }

  ghost predicate Unchanging(files: Files) {
    forall key, n :: files(key, n) == files(key, 0)
  }

  lemma StableStep(files: Files, jobs: Jobs, s: State, w: nat)
    requires Unchanging(files) && Stable(files, s.cache) && Act(files, jobs, s, w).Some?
    ensures Stable(files, Act(files, jobs, s, w).value.cache)
  {
  }

  function DirectValues(files: Files, keys: seq<Key>): seq<Bytes> {
    seq(|keys|, i requires 0 <= i < |keys| => files(keys[i], 0))
  }

  /** The rows of a source read on its own. */
  function Direct(files: Files, src: Source): seq<Row> {
    var main := files(src.main, 0);
    src.decode(main, DirectValues(files, src.more(main)))
  }

  function DirectTo(files: Files, srcs: seq<Source>, k: nat): seq<Row>
    requires k <= |srcs|
  {
    if k == 0 then [] else DirectTo(files, srcs, k - 1) + Direct(files, srcs[k - 1])
  }

  lemma {:induction false} RowsAreDirect(files: Files, cache: Cache, srcs: seq<Source>, k: nat)
    requires Stable(files, cache) && k <= |srcs| && forall j :: 0 <= j < k ==> Read(cache, srcs[j])
    ensures RowsTo(cache, srcs, k) == DirectTo(files, srcs, k)
  {
    if k > 0 {
      RowsAreDirect(files, cache, srcs, k - 1);
      var src := srcs[k - 1];
      assert Values(cache, src.more(cache[src.main].value)) == DirectValues(files, src.more(files(src.main, 0)));
    }
  }

  // The whole scan.

  /** One file through the cache, as the only reader. */
  method ReadThrough(files: Files, cache: Cache, fetched: seq<Key>, key: Key)
    returns (data: Bytes, cache': Cache, fetched': seq<Key>)
    requires Distinct(fetched) && Settled(cache, fetched)
    ensures Distinct(fetched') && Settled(cache', fetched') && Grows(cache, cache')
    ensures key in cache' && cache'[key] == Some(data)
    ensures Unchanging(files) && Stable(files, cache) ==> Stable(files, cache')
  {
    cache', fetched' := cache, fetched;
    if key in cache {
      data := cache[key].value;
    } else {
      data := files(key, |fetched|);
      cache' := cache[key := Some(data)];
      fetched' := fetched + [key];
    }
  }

  /** The host sources, one after the other. */
  method ScanHost(files: Files, srcs: seq<Source>) returns (rows: seq<Row>, cache: Cache, fetched: seq<Key>)
    ensures Distinct(fetched) && Settled(cache, fetched) && (Unchanging(files) ==> Stable(files, cache))
    ensures (forall j :: 0 <= j < |srcs| ==> Read(cache, srcs[j])) && rows == RowsTo(cache, srcs, |srcs|)
  {
    rows, cache, fetched := [], map[], [];
    hide Read, RowsOf;
    for n := 0 to |srcs|
      invariant Distinct(fetched) && Settled(cache, fetched) && (Unchanging(files) ==> Stable(files, cache))
      invariant (forall j :: 0 <= j < n ==> Read(cache, srcs[j])) && rows == RowsTo(cache, srcs, n)
    {
      ghost var before := cache;
      var more;
      more, cache, fetched := ScanSource(files, srcs[n], cache, fetched);
      GrowsRows(before, cache, srcs, n);
      rows := rows + more;
    }
  }

  method ScanSource(files: Files, src: Source, cache: Cache, fetched: seq<Key>)
    returns (rows: seq<Row>, cache': Cache, fetched': seq<Key>)
    requires Distinct(fetched) && Settled(cache, fetched)
    ensures Distinct(fetched') && Settled(cache', fetched') && Grows(cache, cache') && Read(cache', src) && rows == RowsOf(cache', src)
    ensures Unchanging(files) && Stable(files, cache) ==> Stable(files, cache')
  {
    var main;
    main, cache', fetched' := ReadThrough(files, cache, fetched, src.main);
    var got := [main];
    var keys := src.more(main);
    hide Settled, Stable;
    for i := 0 to |keys|
      invariant |got| == i + 1 && got[0] == main && Distinct(fetched') && Settled(cache', fetched')
      invariant Grows(cache, cache') && GotOk(cache', src, got)
      invariant Unchanging(files) && Stable(files, cache) ==> Stable(files, cache')
    {
      ghost var before := cache';
      var data;
      data, cache', fetched' := ReadThrough(files, cache', fetched', keys[i]);
      GrowsGot(before, cache', src, got);
      GotMore(cache', src, got, keys[i], data);
      got := got + [data];
    }
    GotIsRows(cache', src, got);
    rows := src.decode(got[0], got[1..]);
  }

  function Joined(rows: seq<seq<Row>>): seq<Row> {
    if rows == [] then [] else Joined(rows[..|rows| - 1]) + rows[|rows| - 1]
  }

  function DirectAll(files: Files, jobs: Jobs): seq<seq<Row>> {
    seq(|jobs|, p requires 0 <= p < |jobs| => DirectTo(files, jobs[p], |jobs[p]|))
  }

  const DEFAULT_CONCURRENCY: nat := 4
  const MAXIMUM_CONCURRENCY: nat := 32

  function Workers(asked: int, targets: nat): nat {
    var w := if asked <= 0 then DEFAULT_CONCURRENCY else if asked > MAXIMUM_CONCURRENCY then MAXIMUM_CONCURRENCY else asked;
    if w > targets then targets else w
  }

  /** `Scan` under a schedule. When it finishes no file has been read twice and, if the files do not change
      meanwhile, the sorted rows are those of reading every source on its own: they depend neither on the
      number of workers nor on the schedule. */
  method Scan(files: Files, hosts: seq<Source>, jobs: Jobs, asked: int, schedule: seq<nat>, order: seq<Row> -> seq<Row>)
    returns (finished: bool, out: seq<Row>, ghost fetched: seq<Key>, ghost hostCache: Cache, ghost hostReads: seq<Key>)
    ensures Distinct(hostReads) && Settled(hostCache, hostReads)
    ensures finished <==> Final(Run(files, jobs, Start(jobs, Workers(asked, |jobs|), hostCache, hostReads), schedule))
    ensures finished ==> Distinct(fetched)
    ensures finished && Unchanging(files) ==>
              out == order(DirectTo(files, hosts, |hosts|) + Joined(DirectAll(files, jobs)))
  {
    hide *;
    var rows, cache, read := ScanHost(files, hosts);
    var s := Start(jobs, Workers(asked, |jobs|), cache, read);
    ghost var place := StartInv(jobs, Workers(asked, |jobs|), cache, read);
    fetched, hostCache, hostReads := read, cache, read;
    StartFacts(jobs, Workers(asked, |jobs|), cache, read);
    assert schedule[0..] == schedule;
    for n := 0 to |schedule|
      invariant Inv(jobs, s, place) && |s.workers| == Workers(asked, |jobs|) && (Unchanging(files) ==> Stable(files, s.cache))
      invariant Run(files, jobs, s, schedule[n..]) == Run(files, jobs, Start(jobs, Workers(asked, |jobs|), cache, read), schedule)
    {
      RunNext(files, jobs, s, schedule[n], schedule[n + 1..]);
      assert schedule[n..] == [schedule[n]] + schedule[n + 1..];
      var t := Act(files, jobs, s, schedule[n]);
      if t.Some? {
        place := PoolStep(files, jobs, s, place, schedule[n]);
        if Unchanging(files) {
          StableStep(files, jobs, s, schedule[n]);
        }
        s := t.value;
      }
    }
    assert schedule[|schedule|..] == [];
    RunNone(files, jobs, s);
    if !Final(s) {
      return false, [], fetched, hostCache, hostReads;
    }
    fetched := s.fetched;
    EndResults(files, jobs, s, place, asked);
    if Unchanging(files) {
      RowsAreDirect(files, cache, hosts, |hosts|);
    }
    out := order(rows + Joined(s.results));
    return true, out, fetched, hostCache, hostReads;
  }

  lemma StartFacts(jobs: Jobs, workers: nat, cache: Cache, fetched: seq<Key>)
    ensures var s := Start(jobs, workers, cache, fetched); |s.workers| == workers && s.cache == cache
  {
  }

  lemma EndResults(files: Files, jobs: Jobs, s: State, place: seq<Place>, asked: int)
    requires Inv(jobs, s, place) && Final(s) && |s.workers| == Workers(asked, |jobs|)
    ensures Distinct(s.fetched)
    ensures Unchanging(files) && Stable(files, s.cache) ==> s.results == DirectAll(files, jobs)
  {
    FinalResults(jobs, s, place);
    if Unchanging(files) && Stable(files, s.cache) {
      forall p | 0 <= p < |jobs|
        ensures s.results[p] == DirectTo(files, jobs[p], |jobs[p]|)
      {
        RowsAreDirect(files, s.cache, jobs[p], |jobs[p]|);
      }
      assert s.results == DirectAll(files, jobs);
    }
  }
}
