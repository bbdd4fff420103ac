/**
 Running a shard plan and auditing its logs (scripts/windows-shards.py).

 A plan's digest is represented by the plan, and a log by its lines, each either an
 event or text that is not one.
 */
module Auditing {
  import opened Options
  import opened Ordering
  import opened Shards

  datatype Event = Event(package: string, test: string, action: string)

  type Log = seq<Option<Event>>

  datatype Observed = Observed(
    started: multiset<string>, completed: multiset<string>, coverage: bool, terminal: bool, failures: Names)

  datatype Ran = Ran(exitCode: int, timedOut: bool, log: nat, observed: Observed)

  /** `ran` is missing when the command could not be run at all. */
  datatype Outcome = Outcome(task: Task, okay: bool, ran: Option<Ran>)

  datatype Report = Report(schema: nat, shard: nat, plan: Plan, identity: Identity, results: seq<Outcome>, completed: bool)

  // ---------------------------------------------------------------- reading a log

  predicate RootEvent(e: Event, package: string) {
    e.package == package && e.test != "" && '/' !in e.test
  }

  predicate Finishes(e: Event) { e.action == "pass" || e.action == "skip" }

  function StartedBy(line: Option<Event>, package: string): multiset<string> {
    if line.Some? && RootEvent(line.value, package) && line.value.action == "run" then multiset{line.value.test} else multiset{}
  }

  function CompletedBy(line: Option<Event>, package: string): multiset<string> {
    if line.Some? && RootEvent(line.value, package) && Finishes(line.value) then multiset{line.value.test} else multiset{}
  }

  /** How often each root was started. */
  function Started(log: Log, package: string): multiset<string> {
    if log == [] then multiset{} else Started(log[..|log| - 1], package) + StartedBy(log[|log| - 1], package)
  }

  function Completed(log: Log, package: string): multiset<string> {
    if log == [] then multiset{} else Completed(log[..|log| - 1], package) + CompletedBy(log[|log| - 1], package)
  }

  predicate Fails(line: Option<Event>, package: string) {
    line.Some? && line.value.package == package && line.value.action == "fail"
  }

  predicate Ends(line: Option<Event>, package: string) {
    line.Some? && line.value.package == package && line.value.test == "" && Finishes(line.value)
  }

  function FailedIn(log: Log, package: string): Names {
    if log == [] then []
    else
      var line := log[|log| - 1];
      FailedIn(log[..|log| - 1], package)
      + if Fails(line, package) then [if line.value.test != "" then line.value.test else package] else []
  }

  function Expected(log: Log, w: Work): multiset<string> {
    if w.roots.None? then Started(log, w.package) else multiset(w.roots.value)
  }

  function Observation(log: Log, w: Work): Observed {
    var started, completed := Started(log, w.package), Completed(log, w.package);
    var expected := Expected(log, w);
    Observed(started, completed, started == expected && completed == expected,
             exists line <- log :: Ends(line, w.package), FailedIn(log, w.package))
  }

  method ObserveLog(log: Log, w: Work) returns (o: Observed)
    ensures o == Observation(log, w)
  {
    hide StartedBy, CompletedBy;
    var started: multiset<string> := multiset{};
    var completed: multiset<string> := multiset{};
    var failures: Names := [];
    var terminal := false;
    for i := 0 to |log|
      invariant started == Started(log[..i], w.package)
      invariant completed == Completed(log[..i], w.package)
      invariant failures == FailedIn(log[..i], w.package)
      invariant terminal <==> exists line <- log[..i] :: Ends(line, w.package)
    {
      var line := log[i];
      assert log[..i + 1][..i] == log[..i] && log[..i + 1][i] == line;
      assert forall x :: x in log[..i + 1] <==> x in log[..i] || x == line;
      started := started + StartedBy(line, w.package);
      completed := completed + CompletedBy(line, w.package);
      if Ends(line, w.package) {
        terminal := true;
      }
      if Fails(line, w.package) {
        failures := failures + [if line.value.test != "" then line.value.test else w.package];
      }
    }
    assert log[..|log|] == log;
    var expected := if w.roots.None? then started else multiset(w.roots.value);
    o := Observed(started, completed, started == expected && completed == expected, terminal, failures);
  }

  /** What an accepted log shows: every expected root started once and finished once, and nothing failed. */
  predicate Proves(log: Log, w: Work) {
    && Started(log, w.package) == Completed(log, w.package)
    && (w.roots.Some? ==> Started(log, w.package) == multiset(w.roots.value))
    && (exists line <- log :: Ends(line, w.package))
    && forall line <- log :: !Fails(line, w.package)
  }

  predicate Clean(o: Observed) { o.coverage && o.terminal && o.failures == [] }

  lemma {:induction false} NoFailures(log: Log, package: string)
    ensures FailedIn(log, package) == [] <==> forall line <- log :: !Fails(line, package)
  {
    if log != [] {
      var front := log[..|log| - 1];
      NoFailures(front, package);
      assert log == front + [log[|log| - 1]];
    }
  }

  lemma CleanProves(log: Log, w: Work)
    ensures Clean(Observation(log, w)) <==> Proves(log, w)
  {
    hide Started, Completed;
    NoFailures(log, w.package);
  }

  // ---------------------------------------------------------------- running a shard

  /** What happened when a command ran: its exit code, whether it was stopped, and its log. */
  datatype Process = Process(code: int, timedOut: bool, log: Log)

  function TaskResult(task: Task, process: Option<Process>): Outcome {
    match process
    case None => Outcome(task, false, None)
    case Some(p) =>
      var o := Observation(p.log, task.work);
      Outcome(task, p.code == 0 && !p.timedOut && Clean(o), Some(Ran(p.code, p.timedOut, task.id, o)))
  }

  function ProcessOf(processes: map<nat, Process>, task: Task): Option<Process> {
    if task.id in processes then Some(processes[task.id]) else None
  }

  function ShardResults(tasks: seq<Task>, shard: nat, processes: map<nat, Process>): seq<Outcome> {
    if tasks == [] then []
    else (if tasks[0].work.shard == shard then [TaskResult(tasks[0], ProcessOf(processes, tasks[0]))] else [])
         + ShardResults(tasks[1..], shard, processes)
  }

  function ReportOf(plan: Plan, shard: nat, processes: map<nat, Process>): Report {
    Report(1, shard, plan, plan.identity, ShardResults(plan.tasks, shard, processes), true)
  }

  method RunTask(task: Task, process: Option<Process>) returns (r: Outcome)
    ensures r == TaskResult(task, process)
    ensures r.okay <==> process.Some? && process.value.code == 0 && !process.value.timedOut && Proves(process.value.log, task.work)
  {
    if process == None {
      return Outcome(task, false, None);
    }
    var p := process.value;
    var o := ObserveLog(p.log, task.work);
    CleanProves(p.log, task.work);
    r := Outcome(task, p.code == 0 && !p.timedOut && o.terminal && o.coverage
        && o.failures == [], Some(Ran(p.code, p.timedOut, task.id, o)));
  }

  method RunShard(plan: Plan, shard: nat, host: Identity, processes: map<nat, Process>)
    returns (report: Option<Report>, code: nat)
    ensures report.Some? <==> ValidPlan(plan) && shard < plan.shards && host == plan.identity
    ensures report.Some? ==> report.value == ReportOf(plan, shard, processes)
    ensures code == 0 <==> report.Some? && forall r <- report.value.results :: r.okay
  {
    hide ValidPlan, TaskResult;
    var valid := ValidatePlan(plan);
    if !valid || shard >= plan.shards || host != plan.identity {
      return None, 1;
    }
    var results: seq<Outcome> := [];
    var allOkay := true;
    for i := 0 to |plan.tasks|
      invariant results + ShardResults(plan.tasks[i..], shard, processes) == ShardResults(plan.tasks, shard, processes)
      invariant allOkay <==> forall r <- results :: r.okay
    {
      var task := plan.tasks[i];
      assert plan.tasks[i..][1..] == plan.tasks[i + 1..];
      if task.work.shard == shard {
        var r := RunTask(task, ProcessOf(processes, task));
        assert results + ([r] + ShardResults(plan.tasks[i + 1..], shard, processes))
          == results + [r] + ShardResults(plan.tasks[i + 1..], shard, processes);
        assert r in results + [r];
        results := results + [r];
        allOkay := allOkay && r.okay;
      } else {
        assert [] + ShardResults(plan.tasks[i + 1..], shard, processes) == ShardResults(plan.tasks[i + 1..], shard, processes);
      }
    }
    assert results == ShardResults(plan.tasks, shard, processes);
    return Some(Report(1, shard, plan, plan.identity, results, true)), if allOkay then 0 else 1;
  }

  // ---------------------------------------------------------------- the audit

  /** The logs found beside each report: report number and task number name a log. */
  type Logs = map<(nat, nat), Log>

  function Insert(t: Task, s: seq<Task>): seq<Task> {
    if s == [] || t.id <= s[0].id then [t] + s else [s[0]] + Insert(t, s[1..])
  }

  /** A stable sort by task number. */
  function ById(s: seq<Task>): seq<Task> {
    if s == [] then [] else Insert(s[0], ById(s[1..]))
  }

  function ShardsOf(reports: seq<Report>): seq<int> {
    seq(|reports|, i requires 0 <= i < |reports| => reports[i].shard)
  }

  function UpTo(n: int): seq<int> {
    if n <= 0 then [] else UpTo(n - 1) + [n - 1]
  }

  predicate ResultOk(report: Report, k: nat, r: Outcome, logs: Logs) {
    && r.task.work.shard == report.shard
    && r.okay && r.ran.Some? && r.ran.value.exitCode == 0 && !r.ran.value.timedOut
    && r.ran.value.log == r.task.id
    && (k, r.task.id) in logs
    && Proves(logs[(k, r.task.id)], r.task.work)
    && r.ran.value.observed == Observation(logs[(k, r.task.id)], r.task.work)
  }

  predicate ReportOk(plan: Plan, report: Report, k: nat, logs: Logs) {
    && report.schema == 1 && report.completed && report.plan == plan && report.identity == plan.identity
    && forall r <- report.results :: ResultOk(report, k, r, logs)
  }

  function TasksOf(results: seq<Outcome>): seq<Task> {
    if results == [] then [] else [results[0].task] + TasksOf(results[1..])
  }

  function Seen(reports: seq<Report>): seq<Task> {
    if reports == [] then [] else TasksOf(reports[0].results) + Seen(reports[1..])
  }

  predicate AuditOk(plan: Plan, head: string, reports: seq<Report>, logs: Logs) {
    && ValidPlan(plan) && head == plan.identity.commit
    && multiset(ShardsOf(reports)) == multiset(UpTo(plan.shards))
    && (forall k :: 0 <= k < |reports| ==> ReportOk(plan, reports[k], k, logs))
    && ById(Seen(reports)) == plan.tasks
  }

  method AuditResult(report: Report, k: nat, r: Outcome, logs: Logs) returns (accepted: bool)
    ensures accepted <==> ResultOk(report, k, r, logs)
  {
    hide Proves, Observation, Clean;
    if r.task.work.shard != report.shard {
      return false;
    }
    if !r.okay || r.ran == None || r.ran.value.exitCode != 0 || r.ran.value.timedOut {
      return false;
    }
    if r.ran.value.log != r.task.id || (k, r.task.id) !in logs {
      return false;
    }
    var log := logs[(k, r.task.id)];
    var o := ObserveLog(log, r.task.work);
    CleanProves(log, r.task.work);
    if !Clean(o) || r.ran.value.observed != o {
      return false;
    }
    return true;
  }

  /** One report: every result is checked against its own log. */
  method AuditReport(plan: Plan, report: Report, k: nat, logs: Logs) returns (accepted: bool, tasks: seq<Task>)
    ensures accepted <==> ReportOk(plan, report, k, logs)
    ensures accepted ==> tasks == TasksOf(report.results)
  {
    hide *;
    tasks := [];
    ReportIs(plan, report, k, logs);
    if report.schema != 1 || !report.completed || report.plan != plan || report.identity != plan.identity {
      return false, tasks;
    }
    assert report.results[0..] == report.results;
    for j := 0 to |report.results|
      invariant forall i :: 0 <= i < j ==> ResultOk(report, k, report.results[i], logs)
      invariant tasks + TasksOf(report.results[j..]) == TasksOf(report.results)
    {
      var r := report.results[j];
      var fine := AuditResult(report, k, r, logs);
      if !fine {
        assert r in report.results;
        return false, tasks;
      }
      TasksStep(r, report.results[j + 1..]);
      assert report.results[j..] == [r] + report.results[j + 1..];
      assert tasks + ([r.task] + TasksOf(report.results[j + 1..])) == tasks + [r.task] + TasksOf(report.results[j + 1..]);
      tasks := tasks + [r.task];
    }
    TasksEnd(report.results[|report.results|..]);
    assert tasks + [] == tasks;
    return true, tasks;
  }

  lemma ReportIs(plan: Plan, report: Report, k: nat, logs: Logs)
    ensures ReportOk(plan, report, k, logs) <==>
      && report.schema == 1 && report.completed && report.plan == plan && report.identity == plan.identity
      && forall r <- report.results :: ResultOk(report, k, r, logs)
  {
    hide ResultOk;
  }

  lemma TasksStep(r: Outcome, rest: seq<Outcome>)
    ensures TasksOf([r] + rest) == [r.task] + TasksOf(rest)
  {
    assert ([r] + rest)[0] == r && ([r] + rest)[1..] == rest;
  }

  lemma TasksEnd(results: seq<Outcome>)
    requires results == []
    ensures TasksOf(results) == []
  {
  }

  lemma SeenStep(report: Report, rest: seq<Report>)
    ensures Seen([report] + rest) == TasksOf(report.results) + Seen(rest)
  {
    assert ([report] + rest)[0] == report && ([report] + rest)[1..] == rest;
  }

  lemma SeenEnd(reports: seq<Report>)
    requires reports == []
    ensures Seen(reports) == []
  {
  }

  lemma AuditIs(plan: Plan, head: string, reports: seq<Report>, logs: Logs)
    ensures AuditOk(plan, head, reports, logs) <==>
      && ValidPlan(plan) && head == plan.identity.commit
      && multiset(ShardsOf(reports)) == multiset(UpTo(plan.shards))
      && (forall k :: 0 <= k < |reports| ==> ReportOk(plan, reports[k], k, logs))
      && ById(Seen(reports)) == plan.tasks
  {
    hide ValidPlan, ReportOk, ById, Seen, ShardsOf, UpTo;
  }

  method Audit(plan: Plan, head: string, reports: seq<Report>, logs: Logs) returns (accepted: bool)
    ensures accepted <==> AuditOk(plan, head, reports, logs)
  {
    hide *;
    AuditIs(plan, head, reports, logs);
    var valid := ValidatePlan(plan);
    if !valid || head != plan.identity.commit || multiset(ShardsOf(reports)) != multiset(UpTo(plan.shards)) {
      return false;
    }
    var seen: seq<Task> := [];
    assert reports[0..] == reports;
    for k := 0 to |reports|
      invariant forall i :: 0 <= i < k ==> ReportOk(plan, reports[i], i, logs)
      invariant seen + Seen(reports[k..]) == Seen(reports)
    {
      var fine, tasks := AuditReport(plan, reports[k], k, logs);
      if !fine {
        return false;
      }
      SeenStep(reports[k], reports[k + 1..]);
      assert reports[k..] == [reports[k]] + reports[k + 1..];
      assert seen + (tasks + Seen(reports[k + 1..])) == seen + tasks + Seen(reports[k + 1..]);
      seen := seen + tasks;
    }
    SeenEnd(reports[|reports|..]);
    assert seen + [] == seen;
    accepted := ById(seen) == plan.tasks;
  }

  // ---------------------------------------------------------------- what an accepted audit proves

  /** One audited command and the log that stands for it. */
  datatype Run = Run(task: Task, log: Log)

  function LogAt(logs: Logs, k: nat, id: nat): Log {
    if (k, id) in logs then logs[(k, id)] else []
  }

  function ReportRuns(results: seq<Outcome>, k: nat, logs: Logs): seq<Run> {
    if results == [] then []
    else [Run(results[0].task, LogAt(logs, k, results[0].task.id))] + ReportRuns(results[1..], k, logs)
  }

  /** Every audited command, from report `k` on. */
  function Runs(reports: seq<Report>, k: nat, logs: Logs): seq<Run>
    decreases |reports| - k
  {
    if k >= |reports| then [] else ReportRuns(reports[k].results, k, logs) + Runs(reports, k + 1, logs)
  }

  function StartedIn(r: Run, package: string): multiset<string> {
    if r.task.work.package == package then Started(r.log, package) else multiset{}
  }

  function CompletedIn(r: Run, package: string): multiset<string> {
    if r.task.work.package == package then Completed(r.log, package) else multiset{}
  }

  /** How often the roots of a package were started over all the logs. */
  function AllStarted(runs: seq<Run>, package: string): multiset<string> {
    if runs == [] then multiset{} else StartedIn(runs[0], package) + AllStarted(runs[1..], package)
  }

  function AllCompleted(runs: seq<Run>, package: string): multiset<string> {
    if runs == [] then multiset{} else CompletedIn(runs[0], package) + AllCompleted(runs[1..], package)
  }

  function Works(tasks: seq<Task>): (ws: seq<Work>)
    ensures |ws| == |tasks| && forall i :: 0 <= i < |tasks| ==> ws[i] == tasks[i].work
  {
    if tasks == [] then [] else [tasks[0].work] + Works(tasks[1..])
  }

  function RunTasks(runs: seq<Run>): (ts: seq<Task>)
    ensures |ts| == |runs| && forall i :: 0 <= i < |runs| ==> ts[i] == runs[i].task
  {
    if runs == [] then [] else [runs[0].task] + RunTasks(runs[1..])
  }

  predicate RunProves(r: Run) { Proves(r.log, r.task.work) }

  lemma {:induction false} StartedAsNamed(runs: seq<Run>, package: string)
    requires forall r <- runs :: RunProves(r)
    requires forall r <- runs :: r.task.work.package == package ==> r.task.work.roots.Some?
    ensures AllStarted(runs, package) == AllCompleted(runs, package) == Gathered(Works(RunTasks(runs)), package)
  {
    hide Started, Completed;
    if runs != [] {
      var ts := RunTasks(runs);
      StartedAsNamed(runs[1..], package);
      assert ts[1..] == RunTasks(runs[1..]) && Works(ts)[1..] == Works(ts[1..]);
      assert RunProves(runs[0]);
      assert StartedIn(runs[0], package) == CompletedIn(runs[0], package) == NamedBy(Works(ts)[0], package);
    }
  }

  lemma InsertStart(t: Task, s: seq<Task>)
    requires s != [] && !(t.id <= s[0].id)
    ensures Insert(t, s) == [s[0]] + Insert(t, s[1..])
  {
  }

  /** Sorting neither adds nor drops a task. */
  lemma {:induction false} InsertKeeps(t: Task, s: seq<Task>)
    ensures multiset(Insert(t, s)) == multiset{t} + multiset(s)
  {
    if s != [] && !(t.id <= s[0].id) {
      hide *;
      InsertStart(t, s);
      InsertKeeps(t, s[1..]);
      assert s == [s[0]] + s[1..];
      assert multiset([s[0]] + Insert(t, s[1..])) == multiset{s[0]} + multiset(Insert(t, s[1..]));
      assert multiset(s) == multiset{s[0]} + multiset(s[1..]);
    } else {
      assert Insert(t, s) == [t] + s;
    }
  }

  lemma {:induction false} ByIdKeeps(s: seq<Task>)
    ensures multiset(ById(s)) == multiset(s)
  {
    if s != [] {
      ByIdKeeps(s[1..]);
      InsertKeeps(s[0], ById(s[1..]));
      assert s == [s[0]] + s[1..];
    }
  }

  /** The commands that ran are the planned ones, each exactly once. */
  lemma EachTaskOnce(plan: Plan, head: string, reports: seq<Report>, logs: Logs)
    requires AuditOk(plan, head, reports, logs)
    ensures multiset(Seen(reports)) == multiset(plan.tasks)
    ensures forall i, j :: 0 <= i < j < |plan.tasks| ==> plan.tasks[i] != plan.tasks[j]
  {
    hide Fitting, AllWorks, ById, Seen;
    ByIdKeeps(Seen(reports));
    forall i, j | 0 <= i < j < |plan.tasks|
      ensures plan.tasks[i] != plan.tasks[j]
    {
      assert plan.tasks[i].id == i && plan.tasks[j].id == j;
    }
  }

  lemma TakeOut(t: Task, rest: seq<Task>, left: seq<Task>, right: seq<Task>)
    requires multiset([t] + rest) == multiset(left + [t] + right)
    ensures multiset(rest) == multiset(left + right)
  {
    assert multiset([t] + rest) == multiset{t} + multiset(rest);
    assert multiset(left + [t] + right) == multiset(left) + multiset{t} + multiset(right);
    assert multiset(left + right) == multiset(left) + multiset(right);
    forall x
      ensures multiset(rest)[x] == multiset(left + right)[x]
    {
      assert multiset([t] + rest)[x] == multiset(left + [t] + right)[x];
    }
  }

  lemma WorksSplit(left: seq<Task>, t: Task, right: seq<Task>, package: string)
    ensures Gathered(Works(left + [t] + right), package) == NamedBy(t.work, package) + Gathered(Works(left + right), package)
  {
    hide *;
    var x, y, z := Gathered(Works(left), package), NamedBy(t.work, package), Gathered(Works(right), package);
    assert left + [t] + right == left + ([t] + right);
    WorksJoin(left, [t] + right);
    WorksJoin([t], right);
    WorksJoin(left, right);
    assert Works([t]) == [t.work];
    GatheredJoin(Works(left), [t.work] + Works(right), package);
    GatheredJoin(Works(left), Works(right), package);
    GatheredStart(t.work, Works(right), package);
    assert x + (y + z) == y + (x + z);
  }

  lemma WorksJoin(a: seq<Task>, b: seq<Task>)
    ensures Works(a + b) == Works(a) + Works(b)
  {
  }

  lemma {:induction false} WorksPermuted(a: seq<Task>, b: seq<Task>, package: string)
    requires multiset(a) == multiset(b)
    ensures Gathered(Works(a), package) == Gathered(Works(b), package)
  {
    if a == [] {
      assert |b| == |multiset(b)| == |multiset(a)|;
    } else {
      hide *;
      assert a[0] in multiset(a) && a[0] in multiset(b);
      var i :| 0 <= i < |b| && b[i] == a[0];
      var left, right := b[..i], b[i + 1..];
      assert a == [a[0]] + a[1..] == [] + [a[0]] + a[1..] && b == left + [a[0]] + right;
      TakeOut(a[0], a[1..], left, right);
      WorksPermuted(a[1..], left + right, package);
      WorksSplit(left, a[0], right, package);
      WorksSplit([], a[0], a[1..], package);
      assert [] + a[1..] == a[1..];
    }
  }

  lemma {:induction false} RunsOfReport(results: seq<Outcome>, report: Report, k: nat, logs: Logs)
    requires forall r <- results :: ResultOk(report, k, r, logs)
    ensures RunTasks(ReportRuns(results, k, logs)) == TasksOf(results)
    ensures forall r <- ReportRuns(results, k, logs) :: RunProves(r)
  {
    hide Proves, Observation;
    if results != [] {
      RunsOfReport(results[1..], report, k, logs);
      var runs := ReportRuns(results, k, logs);
      assert runs[1..] == ReportRuns(results[1..], k, logs);
      assert ResultOk(report, k, results[0], logs);
      assert RunProves(runs[0]);
    }
  }

  lemma RunTasksJoin(a: seq<Run>, b: seq<Run>)
    ensures RunTasks(a + b) == RunTasks(a) + RunTasks(b)
  {
  }

  lemma {:induction false} RunsOfReports(plan: Plan, reports: seq<Report>, k: nat, logs: Logs)
    requires k <= |reports|
    requires forall i :: k <= i < |reports| ==> ReportOk(plan, reports[i], i, logs)
    ensures RunTasks(Runs(reports, k, logs)) == Seen(reports[k..])
    ensures forall r <- Runs(reports, k, logs) :: RunProves(r)
    decreases |reports| - k
  {
    hide ResultOk, ReportRuns, RunProves;
    if k < |reports| {
      RunsOfReports(plan, reports, k + 1, logs);
      assert reports[k..][1..] == reports[k + 1..];
      RunsOfReport(reports[k].results, reports[k], k, logs);
      RunTasksJoin(ReportRuns(reports[k].results, k, logs), Runs(reports, k + 1, logs));
    }
  }

  /** An accepted audit shows every planned root of a split package started exactly once and finished exactly once. */
  lemma AuditProves(plan: Plan, head: string, reports: seq<Report>, logs: Logs, package: string)
    requires AuditOk(plan, head, reports, logs)
    requires package in plan.split && plan.split[package] != []
    ensures AllStarted(Runs(reports, 0, logs), package) == multiset(plan.split[package])
    ensures AllCompleted(Runs(reports, 0, logs), package) == multiset(plan.split[package])
    ensures forall n <- plan.split[package] :: multiset(plan.split[package])[n] == 1
    ensures forall r <- Runs(reports, 0, logs) :: RunProves(r)
  {
    hide Fitting, AllWorks, ById, Seen, ReportOk, RunProves, Gathered, AllStarted, AllCompleted, Runs, Listed;
    var runs := Runs(reports, 0, logs);
    RunsOfReports(plan, reports, 0, logs);
    assert reports[0..] == reports;
    EachTaskOnce(plan, head, reports, logs);
    forall r | r in runs && r.task.work.package == package
      ensures r.task.work.roots.Some?
    {
      RunIsPlanned(plan, reports, logs, r);
    }
    StartedAsNamed(runs, package);
    WorksPermuted(Seen(reports), plan.tasks, package);
    assert Works(plan.tasks) == AllWorks(plan.packages, plan.split, plan.shards);
    EveryRootOnce(plan.packages, plan.split, plan.shards, package);
    RootsDiffer(plan.split[package]);
  }

  lemma RunIsPlanned(plan: Plan, reports: seq<Report>, logs: Logs, r: Run)
    requires ValidPlan(plan) && r in Runs(reports, 0, logs)
    requires RunTasks(Runs(reports, 0, logs)) == Seen(reports)
    requires multiset(Seen(reports)) == multiset(plan.tasks)
    ensures r.task in plan.tasks
    ensures r.task.work.roots.Some? <==> r.task.work.package in plan.split && plan.split[r.task.work.package] != []
  {
    hide Fitting, AllWorks, Seen, Runs, Listed;
    var runs := Runs(reports, 0, logs);
    var i :| 0 <= i < |runs| && runs[i] == r;
    assert RunTasks(runs)[i] == r.task;
    assert r.task in multiset(Seen(reports)) && r.task in multiset(plan.tasks);
    var j :| 0 <= j < |plan.tasks| && plan.tasks[j] == r.task;
    assert r.task.work in AllWorks(plan.packages, plan.split, plan.shards);
    WorkOfSplit(plan.packages, plan.split, plan.shards, r.task.work);
  }

  lemma {:induction false} OnceEach(names: Names)
    requires Ascending(names)
    ensures forall n <- names :: multiset(names)[n] == 1
  {
    if names != [] {
      OnceEach(names[1..]);
      assert names == [names[0]] + names[1..];
      forall n | n in names
        ensures multiset(names)[n] == 1
      {
        var rest := names[1..];
        assert multiset(names) == multiset{names[0]} + multiset(rest);
        LessTotal(n, names[0]);
        assert n in rest ==> n != names[0];
        if n !in rest {
          assert n !in multiset(rest);
        }
      }
    }
  }

  lemma RootsDiffer(names: Names)
    requires SortedOnce(names)
    ensures forall n <- names :: multiset(names)[n] == 1
  {
    OnceEach(names);
  }

  /** And every other package ran whole in one command, whose log reached the end with no failure. */
  lemma WholePackageRan(plan: Plan, head: string, reports: seq<Report>, logs: Logs, package: string) returns (r: Run)
    requires AuditOk(plan, head, reports, logs)
    requires package in plan.packages && IsWhole(plan.split, package)
    ensures r in Runs(reports, 0, logs) && r.task.work.package == package && r.task.work.roots == None
    ensures RunProves(r)
    ensures forall q <- Runs(reports, 0, logs) :: q.task.work.package == package ==> q.task == r.task
  {
    hide Fitting, AllWorks, ById, Seen, ReportOk, RunProves, Runs;
    var runs := Runs(reports, 0, logs);
    RunsOfReports(plan, reports, 0, logs);
    assert reports[0..] == reports;
    EachTaskOnce(plan, head, reports, logs);
    var k := EveryPackageOnce(plan.packages, plan.split, plan.shards, package);
    var t := plan.tasks[k];
    assert t in multiset(plan.tasks) && t in multiset(Seen(reports));
    var i :| 0 <= i < |runs| && RunTasks(runs)[i] == t;
    r := runs[i];
    forall q | q in runs && q.task.work.package == package
      ensures q.task == r.task
    {
      RunIsPlanned(plan, reports, logs, q);
      var j :| 0 <= j < |plan.tasks| && plan.tasks[j] == q.task;
      assert AllWorks(plan.packages, plan.split, plan.shards)[j].package == package;
    }
  }

  // ---------------------------------------------------------------- honest runs are accepted

  /** The reports of shards `lo` and up, each written by `RunShard`. */
  function ReportsFrom(plan: Plan, lo: nat, processes: map<nat, Process>): seq<Report>
    decreases plan.shards - lo
  {
    if lo >= plan.shards then [] else [ReportOf(plan, lo, processes)] + ReportsFrom(plan, lo + 1, processes)
  }

  /** The logs that `RunShard` leaves beside the reports. */
  predicate LogsLeft(plan: Plan, processes: map<nat, Process>, logs: Logs) {
    forall t <- plan.tasks :: t.id in processes ==>
      (t.work.shard, t.id) in logs && logs[(t.work.shard, t.id)] == processes[t.id].log
  }

  predicate Passed(processes: map<nat, Process>, t: Task) {
    && t.id in processes && processes[t.id].code == 0 && !processes[t.id].timedOut
    && Proves(processes[t.id].log, t.work)
  }

  function OfShard(tasks: seq<Task>, shard: nat): seq<Task> {
    if tasks == [] then [] else (if tasks[0].work.shard == shard then [tasks[0]] else []) + OfShard(tasks[1..], shard)
  }

  predicate ResultOf(tasks: seq<Task>, shard: nat, processes: map<nat, Process>, r: Outcome) {
    r.task in tasks && r.task.work.shard == shard && r == TaskResult(r.task, ProcessOf(processes, r.task))
  }

  lemma TasksOfJoin(a: seq<Outcome>, b: seq<Outcome>)
    requires |a| <= 1
    ensures TasksOf(a + b) == TasksOf(a) + TasksOf(b)
  {
    if a == [] {
      assert a + b == b;
    } else {
      assert (a + b)[0] == a[0] && (a + b)[1..] == b && a[1..] == [];
    }
  }

  lemma {:induction false} TasksOfShard(tasks: seq<Task>, shard: nat, processes: map<nat, Process>)
    ensures TasksOf(ShardResults(tasks, shard, processes)) == OfShard(tasks, shard)
  {
    if tasks != [] {
      hide TaskResult, ProcessOf;
      TasksOfShard(tasks[1..], shard, processes);
      var r := TaskResult(tasks[0], ProcessOf(processes, tasks[0]));
      TaskOfResult(tasks[0], ProcessOf(processes, tasks[0]));
      var now := if tasks[0].work.shard == shard then [r] else [];
      assert ShardResults(tasks, shard, processes) == now + ShardResults(tasks[1..], shard, processes);
      TasksOfJoin(now, ShardResults(tasks[1..], shard, processes));
      assert [r][1..] == [] && TasksOf([]) == [];
      assert TasksOf([r]) == [tasks[0]];
    }
  }

  lemma {:induction false} ShardResultsAre(tasks: seq<Task>, shard: nat, processes: map<nat, Process>)
    ensures forall r <- ShardResults(tasks, shard, processes) :: ResultOf(tasks, shard, processes, r)
    ensures forall t <- tasks :: t.work.shard == shard ==>
              TaskResult(t, ProcessOf(processes, t)) in ShardResults(tasks, shard, processes)
  {
    if tasks != [] {
      hide ProcessOf;
      ShardResultsAre(tasks[1..], shard, processes);
      TaskOfResult(tasks[0], ProcessOf(processes, tasks[0]));
    }
  }

  lemma TaskOfResult(t: Task, process: Option<Process>)
    ensures TaskResult(t, process).task == t
  {
  }

  lemma OkayIsPassed(t: Task, processes: map<nat, Process>)
    ensures TaskResult(t, ProcessOf(processes, t)).okay <==> Passed(processes, t)
  {
    if t.id in processes {
      CleanProves(processes[t.id].log, t.work);
    }
  }

  predicate IdsAscend(tasks: seq<Task>) {
    forall i, j :: 0 <= i < j < |tasks| ==> tasks[i].id < tasks[j].id
  }

  lemma TailAscends(first: Task, rest: seq<Task>)
    requires IdsAscend([first] + rest)
    ensures IdsAscend(rest) && forall t <- rest :: first.id < t.id
  {
    var all := [first] + rest;
    assert all[1..] == rest;
    forall i, j | 0 <= i < j < |rest| ensures rest[i].id < rest[j].id { assert all[i + 1].id < all[j + 1].id; }
    forall t | t in rest
      ensures first.id < t.id
    {
      var i :| 0 <= i < |rest| && rest[i] == t;
      assert all[0].id < all[i + 1].id;
    }
  }

  lemma HeadAscends(first: Task, rest: seq<Task>)
    requires IdsAscend(rest) && forall t <- rest :: first.id < t.id
    ensures IdsAscend([first] + rest)
  {
  }

  lemma OfShardStep(first: Task, rest: seq<Task>, shard: nat)
    ensures OfShard([first] + rest, shard) == (if first.work.shard == shard then [first] else []) + OfShard(rest, shard)
  {
    assert ([first] + rest)[0] == first && ([first] + rest)[1..] == rest;
  }

  lemma {:induction false} OfShardAscends(tasks: seq<Task>, shard: nat)
    requires IdsAscend(tasks)
    ensures IdsAscend(OfShard(tasks, shard))
    ensures forall t :: t in OfShard(tasks, shard) <==> t in tasks && t.work.shard == shard
  {
    if tasks != [] {
      hide *;
      var first, rest := tasks[0], tasks[1..];
      assert tasks == [first] + rest;
      TailAscends(first, rest);
      OfShardAscends(rest, shard);
      OfShardStep(first, rest, shard);
      if first.work.shard == shard {
        HeadAscends(first, OfShard(rest, shard));
      } else {
        assert [] + OfShard(rest, shard) == OfShard(rest, shard);
      }
    }
  }

  predicate IdsDiffer(tasks: seq<Task>) {
    forall i, j :: 0 <= i < j < |tasks| ==> tasks[i].id != tasks[j].id
  }

  lemma {:induction false} InsertAscends(t: Task, s: seq<Task>)
    requires IdsAscend(s) && forall x <- s :: x.id != t.id
    ensures IdsAscend(Insert(t, s))
    ensures forall x :: x in Insert(t, s) <==> x == t || x in s
  {
    if s != [] && !(t.id <= s[0].id) {
      InsertAscends(t, s[1..]);
      assert forall x <- s[1..] :: s[0].id < x.id;
    }
  }

  lemma {:induction false} ByIdAscends(s: seq<Task>)
    requires IdsDiffer(s)
    ensures IdsAscend(ById(s))
    ensures forall x :: x in ById(s) <==> x in s
  {
    if s != [] {
      hide Insert;
      ByIdAscends(s[1..]);
      assert forall x <- s[1..] :: x.id != s[0].id;
      InsertAscends(s[0], ById(s[1..]));
    }
  }

  /** There is only one list of given tasks in ascending order of their numbers. */
  lemma {:induction false} AscendingOnce(a: seq<Task>, b: seq<Task>)
    requires IdsAscend(a) && IdsAscend(b) && forall t :: t in a <==> t in b
    ensures a == b
  {
    assert |a| > 0 ==> a[0] in b;
    assert |b| > 0 ==> b[0] in a;
    if a != [] {
      assert a[0] in b && b[0] in a;
      assert a[0] == b[0];
      forall t
        ensures t in a[1..] <==> t in b[1..]
      {
        if t in a[1..] {
          assert t.id > a[0].id && t in b;
        }
        if t in b[1..] {
          assert t.id > b[0].id && t in a;
        }
      }
      AscendingOnce(a[1..], b[1..]);
      assert a == [a[0]] + a[1..] && b == [b[0]] + b[1..];
    }
  }

  predicate SeenFrom(plan: Plan, lo: nat, seen: seq<Task>) {
    && IdsDiffer(seen)
    && (forall t <- seen :: t in plan.tasks && lo <= t.work.shard < plan.shards)
    && forall t <- plan.tasks :: lo <= t.work.shard < plan.shards ==> t in seen
  }

  lemma {:induction false} SeenOfReports(plan: Plan, lo: nat, processes: map<nat, Process>)
    requires IdsAscend(plan.tasks)
    ensures SeenFrom(plan, lo, Seen(ReportsFrom(plan, lo, processes)))
    decreases plan.shards - lo
  {
    if lo < plan.shards {
      hide ShardResults, OfShard, TasksOf, TaskResult;
      var first, more := OfShard(plan.tasks, lo), Seen(ReportsFrom(plan, lo + 1, processes));
      TasksOfShard(plan.tasks, lo, processes);
      OfShardAscends(plan.tasks, lo);
      SeenOfReports(plan, lo + 1, processes);
      var reports := ReportsFrom(plan, lo, processes);
      assert reports[0] == ReportOf(plan, lo, processes) && reports[1..] == ReportsFrom(plan, lo + 1, processes);
      assert Seen(reports) == first + more;
      TwoShards(plan, lo, first, more);
    }
  }

  lemma TwoShards(plan: Plan, lo: nat, first: seq<Task>, more: seq<Task>)
    requires IdsAscend(plan.tasks) && IdsAscend(first) && lo < plan.shards
    requires forall t :: t in first <==> t in plan.tasks && t.work.shard == lo
    requires SeenFrom(plan, lo + 1, more)
    ensures SeenFrom(plan, lo, first + more)
  {
    var all := first + more;
    forall i, j | 0 <= i < j < |all|
      ensures all[i].id != all[j].id
    {
      if i < |first| <= j {
        assert first[i] in first && more[j - |first|] in more;
        SameId(plan.tasks, all[i], all[j]);
      }
    }
  }

  lemma SameId(tasks: seq<Task>, a: Task, b: Task)
    requires IdsAscend(tasks) && a in tasks && b in tasks && a != b
    ensures a.id != b.id
  {
  }

  lemma {:induction false} BatchShards(shard: nat, package: string, batches: seq<Names>)
    ensures forall w <- BatchWorks(shard, package, batches) :: w.shard == shard
  {
    if batches != [] {
      BatchShards(shard, package, batches[1..]);
    }
  }

  lemma {:induction false} PackageShards(package: string, roots: Names, count: nat, shard: nat)
    requires count > 0
    ensures forall w <- PackageWorks(package, roots, count, shard) :: w.shard < count
    decreases count - shard
  {
    hide BatchWorks;
    if shard < count {
      PackageShards(package, roots, count, shard + 1);
      BatchShards(shard, package, Batches(package, [], Stride(roots, shard, count)));
    }
  }

  lemma {:induction false} SplitShards(split: map<string, Names>, names: Names, count: nat)
    requires count > 0 && forall p <- names :: p in split
    ensures forall w <- SplitWorks(split, names, count) :: w.shard < count
  {
    hide PackageWorks;
    if names != [] {
      PackageShards(names[0], split[names[0]], count, 0);
      SplitShards(split, names[1..], count);
    }
  }

  lemma TasksInShards(plan: Plan)
    requires ValidPlan(plan)
    ensures IdsAscend(plan.tasks)
    ensures forall t <- plan.tasks :: t.work.shard < plan.shards
  {
    hide Fitting, SplitWorks, Others, SortedOnce;
    var works := AllWorks(plan.packages, plan.split, plan.shards);
    SplitShards(plan.split, Listed(plan.split.Keys), plan.shards);
    forall t | t in plan.tasks
      ensures t.work.shard < plan.shards
    {
      var i :| 0 <= i < |plan.tasks| && plan.tasks[i] == t;
      assert works[i] == t.work;
    }
  }

  lemma {:induction false} ReportsAre(plan: Plan, lo: nat, processes: map<nat, Process>)
    requires lo <= plan.shards
    ensures |ReportsFrom(plan, lo, processes)| == plan.shards - lo
    ensures forall i :: 0 <= i < plan.shards - lo ==>
              ReportsFrom(plan, lo, processes)[i] == ReportOf(plan, lo + i, processes)
    decreases plan.shards - lo
  {
    hide ReportOf;
    if lo < plan.shards {
      ReportsAre(plan, lo + 1, processes);
    }
  }

  lemma {:induction false} UpToAre(n: nat)
    ensures |UpTo(n)| == n && forall i :: 0 <= i < n ==> UpTo(n)[i] == i
  {
    if n > 0 {
      UpToAre(n - 1);
    }
  }

  lemma ShardReportOk(plan: Plan, k: nat, processes: map<nat, Process>, logs: Logs)
    requires LogsLeft(plan, processes, logs)
    ensures ReportOk(plan, ReportOf(plan, k, processes), k, logs)
       <==> forall t <- plan.tasks :: t.work.shard == k ==> Passed(processes, t)
  {
    hide Passed, ShardResults, TaskResult, ResultOk;
    var report := ReportOf(plan, k, processes);
    ShardResultsAre(plan.tasks, k, processes);
    forall t | t in plan.tasks && t.work.shard == k
      ensures ResultOk(report, k, TaskResult(t, ProcessOf(processes, t)), logs) <==> Passed(processes, t)
    {
      TaskResultOk(plan, k, t, processes, logs);
    }
    if ReportOk(plan, report, k, logs) {
      forall t | t in plan.tasks && t.work.shard == k
        ensures Passed(processes, t)
      {
        assert TaskResult(t, ProcessOf(processes, t)) in report.results;
      }
    }
    if forall t <- plan.tasks :: t.work.shard == k ==> Passed(processes, t) {
      forall r | r in report.results
        ensures ResultOk(report, k, r, logs)
      {
        assert ResultOf(plan.tasks, k, processes, r);
      }
    }
  }

  lemma TaskResultOk(plan: Plan, k: nat, t: Task, processes: map<nat, Process>, logs: Logs)
    requires LogsLeft(plan, processes, logs) && t in plan.tasks && t.work.shard == k
    ensures ResultOk(ReportOf(plan, k, processes), k, TaskResult(t, ProcessOf(processes, t)), logs) <==>
              Passed(processes, t)
  {
    hide Proves, Observation, ShardResults;
    OkayIsPassed(t, processes);
  }

  /** An audit of the reports of every shard accepts exactly when every planned command passed. */
  lemma AuditOfRuns(plan: Plan, processes: map<nat, Process>, logs: Logs)
    requires ValidPlan(plan) && LogsLeft(plan, processes, logs)
    ensures AuditOk(plan, plan.identity.commit, ReportsFrom(plan, 0, processes), logs)
       <==> forall t <- plan.tasks :: Passed(processes, t)
  {
    hide ValidPlan, Passed, ReportOk, ReportsFrom, ReportOf, Seen, ById, UpTo, LogsLeft;
    assert ValidPlan(plan) ==> plan.shards >= 1 by { ShardsPositive(plan); }
    var reports := ReportsFrom(plan, 0, processes);
    ReportsAre(plan, 0, processes);
    UpToAre(plan.shards);
    forall k: nat | k < |reports|
      ensures reports[k].shard == k
      ensures ReportOk(plan, reports[k], k, logs) <==>
                forall t <- plan.tasks :: t.work.shard == k ==> Passed(processes, t)
    {
      ShardReportOk(plan, k, processes, logs);
      ReportShard(plan, k, processes);
    }
    assert ShardsOf(reports) == UpTo(plan.shards);
    TasksInShards(plan);
    SeenOfReports(plan, 0, processes);
    ByIdAscends(Seen(reports));
    AscendingOnce(ById(Seen(reports)), plan.tasks);
    if forall k :: 0 <= k < |reports| ==> ReportOk(plan, reports[k], k, logs) {
      forall t | t in plan.tasks
        ensures Passed(processes, t)
      {
        assert ReportOk(plan, reports[t.work.shard], t.work.shard, logs);
      }
    }
  }

  lemma ReportShard(plan: Plan, k: nat, processes: map<nat, Process>)
    ensures ReportOf(plan, k, processes).shard == k
  {
  }

  lemma ShardsPositive(plan: Plan)
    requires ValidPlan(plan)
    ensures 1 <= plan.shards <= 16
  {
  }
}
