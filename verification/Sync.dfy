/**
 Archive synchronization between clones (internal/agenthistory/sync.go).

 Commits are numbered as they are made and never change. Any number of clones share
 one remote; every step of every clone may fall between two steps of another.
 */
module Sync {
  import opened Options

  /** The parents of each commit, all made before it. */
  type Dag = seq<set<nat>>

  predicate Grounded(dag: Dag) {
    forall i :: 0 <= i < |dag| ==> forall p <- dag[i] :: p < i
  }

  /** Everything reachable from a commit, itself included. */
  function Reach(dag: Dag, tip: nat): set<nat>
    requires Grounded(dag) && tip < |dag|
    decreases tip
  {
    {tip} + set p, x | p in dag[tip] && x in Reach(dag, p) :: x
  }

  predicate TipOk(dag: Dag, tip: Option<nat>) { tip.Some? ==> tip.value < |dag| }

  /** History is only added to. */
  ghost predicate Extends(dag: Dag, more: Dag)
    requires Grounded(dag) && Grounded(more)
  {
    |dag| <= |more| && forall tip: nat :: tip < |dag| ==> Reach(more, tip) == Reach(dag, tip)
  }

  function ReachOf(dag: Dag, tip: Option<nat>): set<nat>
    requires Grounded(dag) && TipOk(dag, tip)
  {
    if tip.None? then {} else Reach(dag, tip.value)
  }

  lemma {:induction false} ReachTrans(dag: Dag, a: nat, b: nat)
    requires Grounded(dag) && b < |dag| && a in Reach(dag, b)
    ensures a < |dag| && Reach(dag, a) <= Reach(dag, b)
    decreases b
  {
    if a != b {
      var p :| p in dag[b] && a in Reach(dag, p);
      ReachTrans(dag, a, p);
    }
  }

  lemma {:induction false} ReachExtends(dag: Dag, parents: set<nat>, tip: nat)
    requires Grounded(dag) && Grounded(dag + [parents]) && tip < |dag|
    ensures Reach(dag + [parents], tip) == Reach(dag, tip)
    decreases tip
  {
    forall p | p in dag[tip]
      ensures Reach(dag + [parents], p) == Reach(dag, p)
    {
      ReachExtends(dag, parents, p);
    }
  }

  // ---------------------------------------------------------------- state

  datatype Status = Prepared | Applying | Partial | Complete

  /** What a preview pinned: the clone's head and what the remote branch held. */
  datatype Plan = Plan(push: bool, branch: string, head: Option<nat>, seen: Option<nat>, status: Status)

  /** Where a clone is inside an apply of plan `p`. */
  datatype Phase =
    | Idle
    | PushBegun(p: nat) | PushChecked(p: nat) | PushSent(p: nat)
    | PullBegun(p: nat) | PullFetched(p: nat) | PullRechecked(p: nat) | PullMerged(p: nat)

  datatype Clone = Clone(branch: string, head: Option<nat>, plans: seq<Plan>, phase: Phase)

  datatype State = State(dag: Dag, remote: map<string, nat>, clones: seq<Clone>)

  function Tip(s: State, branch: string): Option<nat> {
    if branch in s.remote then Some(s.remote[branch]) else None
  }

  predicate IsAncestor(dag: Dag, a: nat, b: nat)
    requires Grounded(dag)
  {
    b < |dag| && a in Reach(dag, b)
  }

  // ---------------------------------------------------------------- invariant

  /** What a pinned plan always satisfies; `onto` is what completing it put it onto. */
  ghost predicate PlanOk(s: State, c: Clone, plan: Plan)
    requires Grounded(s.dag)
  {
    && TipOk(s.dag, plan.head) && TipOk(s.dag, plan.seen) && plan.branch == c.branch
    && (plan.push ==> plan.head.Some?)
    && (!plan.push ==> plan.seen.Some?)
    && (plan.push && plan.seen.Some? ==> IsAncestor(s.dag, plan.seen.value, plan.head.value))
    && (plan.push && plan.status == Complete ==> Tip(s, plan.branch).Some? && IsAncestor(s.dag, plan.head.value, Tip(s, plan.branch).value))
    && (!plan.push && plan.status == Complete ==> c.head.Some? && IsAncestor(s.dag, plan.seen.value, c.head.value))
  }

  function ActivePlan(phase: Phase): Option<(nat, bool)> {
    match phase
    case Idle => None
    case PushBegun(p) => Some((p, true))
    case PushChecked(p) => Some((p, true))
    case PushSent(p) => Some((p, true))
    case PullBegun(p) => Some((p, false))
    case PullFetched(p) => Some((p, false))
    case PullRechecked(p) => Some((p, false))
    case PullMerged(p) => Some((p, false))
  }

  predicate PhaseOk(c: Clone) {
    match ActivePlan(c.phase)
    case None => true
    case Some((p, push)) => p < |c.plans| && c.plans[p].push == push && c.plans[p].status == Applying
  }

  ghost predicate CloneOk(s: State, c: Clone)
    requires Grounded(s.dag)
  {
    && TipOk(s.dag, c.head) && PhaseOk(c)
    && forall plan <- c.plans :: PlanOk(s, c, plan)
  }

  ghost predicate RemoteOk(s: State) {
    forall b <- s.remote :: s.remote[b] < |s.dag|
  }

  ghost predicate Inv(s: State) {
    && Grounded(s.dag) && RemoteOk(s)
    && forall i :: 0 <= i < |s.clones| ==> CloneOk(s, s.clones[i])
  }

  ghost predicate HeadsOk(s: State) {
    forall i :: 0 <= i < |s.clones| ==> TipOk(s.dag, s.clones[i].head)
  }

  ghost predicate HeadKept(s: State, t: State, i: nat)
    requires Grounded(s.dag) && Grounded(t.dag) && HeadsOk(s) && HeadsOk(t) && i < |s.clones| && i < |t.clones|
  {
    ReachOf(s.dag, s.clones[i].head) <= ReachOf(t.dag, t.clones[i].head)
  }

  /** Nothing reachable from a branch of the remote or from a clone's head is lost. */
  ghost predicate Keeps(s: State, t: State)
    requires Grounded(s.dag) && RemoteOk(s) && HeadsOk(s)
    requires Grounded(t.dag) && RemoteOk(t) && HeadsOk(t)
  {
    && |t.clones| == |s.clones|
    && (forall b <- s.remote :: b in t.remote && Reach(s.dag, s.remote[b]) <= Reach(t.dag, t.remote[b]))
    && (forall i :: 0 <= i < |s.clones| ==> HeadKept(s, t, i))
    && Extends(s.dag, t.dag)
  }

  // ---------------------------------------------------------------- actions

  datatype Action =
    | Commit(c: nat, merged: set<nat>)
    | Preview(c: nat, push: bool)
    | Begin(c: nat, p: nat)
    | Ancestry(c: nat)
    | Send(c: nat, delivered: bool, reported: bool)
    | Verify(c: nat)
    | Fetch(c: nat, fine: bool)
    | Recheck(c: nat)
    | Merge(c: nat)
    | ReadBack(c: nat)
    | Crash(c: nat)

  function WithClone(s: State, c: nat, x: Clone): State
    requires c < |s.clones|
  {
    s.(clones := s.clones[c := x])
  }

  /** Ends an apply: the plan takes its last status and the clone is idle again. */
  function Ended(x: Clone, p: nat, status: Status): Clone
    requires p < |x.plans|
  {
    x.(plans := x.plans[p := x.plans[p].(status := status)], phase := Idle)
  }

  /** The checks and the pinning of `PreviewSync`. */
  function AfterPreview(s: State, c: nat, push: bool): State
    requires Grounded(s.dag) && c < |s.clones| && TipOk(s.dag, s.clones[c].head)
  {
    var x := s.clones[c];
    var seen := Tip(s, x.branch);
    if push && (x.head.None? || (seen.Some? && !IsAncestor(s.dag, seen.value, x.head.value))) then s
    else if !push && seen.None? then s
    else WithClone(s, c, x.(plans := x.plans + [Plan(push, x.branch, x.head, seen, Prepared)]))
  }

  /** The guarded start of `ApplySync`: head and remote branch must still be what was pinned. */
  function AfterBegin(s: State, c: nat, p: nat): State
    requires c < |s.clones|
  {
    var x := s.clones[c];
    if x.phase != Idle || p >= |x.plans| || x.plans[p].status != Prepared then s
    else
      var plan := x.plans[p];
      if x.head != plan.head || Tip(s, plan.branch) != plan.seen then s
      else
        WithClone(s, c, x.(plans := x.plans[p := plan.(status := Applying)],
                           phase := if plan.push then PushBegun(p) else PullBegun(p)))
  }

  /** The second ancestry check of a push. */
  function AfterAncestry(s: State, c: nat): State
    requires Grounded(s.dag) && c < |s.clones|
  {
    var x := s.clones[c];
    if !x.phase.PushBegun? || x.phase.p >= |x.plans| || x.plans[x.phase.p].head.None? then s
    else
      var plan := x.plans[x.phase.p];
      if plan.seen.None? || IsAncestor(s.dag, plan.seen.value, plan.head.value) then WithClone(s, c, x.(phase := PushChecked(x.phase.p)))
      else WithClone(s, c, Ended(x, x.phase.p, Partial))
  }

  /** Git takes the push: the branch is at exactly the leased commit, or at the pushed one already and then the
      lease is not looked at. */
  predicate Takes(s: State, plan: Plan) {
    Tip(s, plan.branch) == plan.seen || Tip(s, plan.branch) == plan.head
  }

  /** The push itself: the remote moves only from exactly the leased commit. */
  function AfterSend(s: State, c: nat, delivered: bool, reported: bool): State
    requires c < |s.clones|
  {
    var x := s.clones[c];
    if !x.phase.PushChecked? || x.phase.p >= |x.plans| || x.plans[x.phase.p].head.None? then s
    else
      var plan := x.plans[x.phase.p];
      var moved := delivered && Takes(s, plan);
      var t := if moved then s.(remote := s.remote[plan.branch := plan.head.value]) else s;
      WithClone(t, c, if moved && reported then x.(phase := PushSent(x.phase.p)) else Ended(x, x.phase.p, Partial))
  }

  /** `merge --ff-only` of the fetched commit. */
  function AfterMerge(s: State, c: nat): State
    requires Grounded(s.dag) && c < |s.clones| && TipOk(s.dag, s.clones[c].head)
  {
    var x := s.clones[c];
    if !x.phase.PullRechecked? || x.phase.p >= |x.plans| || x.plans[x.phase.p].seen.None? then s
    else
      var target := x.plans[x.phase.p].seen.value;
      if x.head.Some? && IsAncestor(s.dag, target, x.head.value) then WithClone(s, c, x.(phase := PullMerged(x.phase.p)))
      else if x.head.None? || IsAncestor(s.dag, x.head.value, target) then
        WithClone(s, c, x.(head := Some(target), phase := PullMerged(x.phase.p)))
      else WithClone(s, c, Ended(x, x.phase.p, Partial))
  }

  function Act(s: State, a: Action): State
    requires Inv(s)
  {
    if a.c >= |s.clones| then s
    else
      var x := s.clones[a.c];
      assert CloneOk(s, x);
      match a
      case Commit(c, merged) =>
        if exists m <- merged :: m >= |s.dag| then s
        else
          var parents := merged + if x.head.Some? then {x.head.value} else {};
          WithClone(s.(dag := s.dag + [parents]), c, x.(head := Some(|s.dag|)))
      case Preview(c, push) => AfterPreview(s, c, push)
      case Begin(c, p) => AfterBegin(s, c, p)
      case Ancestry(c) => AfterAncestry(s, c)
      case Send(c, delivered, reported) => AfterSend(s, c, delivered, reported)
      case Verify(c) =>
        if !x.phase.PushSent? then s
        else
          var plan := x.plans[x.phase.p];
          WithClone(s, c, Ended(x, x.phase.p, if Tip(s, plan.branch) == plan.head then Complete else Partial))
      case Fetch(c, fine) =>
        if !x.phase.PullBegun? then s
        else WithClone(s, c, if fine then x.(phase := PullFetched(x.phase.p)) else Ended(x, x.phase.p, Partial))
      case Recheck(c) =>
        if !x.phase.PullFetched? then s
        else WithClone(s, c, if x.head == x.plans[x.phase.p].head then x.(phase := PullRechecked(x.phase.p))
            else Ended(x, x.phase.p, Partial))
      case Merge(c) => AfterMerge(s, c)
      case ReadBack(c) =>
        if !x.phase.PullMerged? then s
        else WithClone(s, c, Ended(x, x.phase.p, if x.head == x.plans[x.phase.p].seen then Complete else Partial))
      case Crash(c) => WithClone(s, c, x.(phase := Idle))
  }

  // ---------------------------------------------------------------- one step

  lemma SameKeeps(s: State, t: State)
    requires Inv(s) && t.dag == s.dag && t.remote == s.remote && |t.clones| == |s.clones|
    requires forall i :: 0 <= i < |s.clones| ==> t.clones[i].head == s.clones[i].head
    ensures Grounded(t.dag) && RemoteOk(t) && HeadsOk(t)
    ensures Keeps(s, t)
  {
    hide Reach;
  }

  /** A plan stays good when nothing reachable is lost. */
  lemma PlanStays(s: State, t: State, c: Clone, d: Clone, plan: Plan)
    requires Inv(s) && PlanOk(s, c, plan) && TipOk(s.dag, c.head)
    requires Grounded(t.dag) && RemoteOk(t) && TipOk(t.dag, d.head) && d.branch == c.branch
    requires Extends(s.dag, t.dag)
    requires forall b <- s.remote :: b in t.remote && Reach(s.dag, s.remote[b]) <= Reach(t.dag, t.remote[b])
    requires ReachOf(s.dag, c.head) <= ReachOf(t.dag, d.head)
    ensures PlanOk(t, d, plan)
  {
    if plan.push && plan.status == Complete {
      assert plan.head.value in Reach(s.dag, s.remote[plan.branch]);
    }
    if !plan.push && plan.status == Complete {
      assert plan.seen.value in ReachOf(s.dag, c.head);
    }
    hide Reach;
  }

  /** Only clone `c` changed, and nothing reachable was lost. */
  lemma OthersStay(s: State, t: State, c: nat)
    requires Inv(s) && c < |s.clones| && |t.clones| == |s.clones|
    requires Grounded(t.dag) && RemoteOk(t) && HeadsOk(t)
    requires Keeps(s, t)
    requires forall i :: 0 <= i < |s.clones| && i != c ==> t.clones[i] == s.clones[i]
    requires CloneOk(t, t.clones[c])
    ensures Inv(t)
  {
    hide Reach, PlanOk;
    forall i | 0 <= i < |t.clones|
      ensures CloneOk(t, t.clones[i])
    {
      if i != c {
        assert CloneOk(s, s.clones[i]) && HeadKept(s, t, i);
        forall plan | plan in t.clones[i].plans
          ensures PlanOk(t, t.clones[i], plan)
        {
          PlanStays(s, t, s.clones[i], t.clones[i], plan);
        }
      }
    }
  }

  /** A step that changes only the plans and the phase of one clone. */
  lemma BookStep(s: State, c: nat, x: Clone)
    requires Inv(s) && c < |s.clones|
    requires x.branch == s.clones[c].branch && x.head == s.clones[c].head && PhaseOk(x)
    requires forall plan <- x.plans :: PlanOk(s, x, plan)
    ensures var t := WithClone(s, c, x);
      Inv(t) && Keeps(s, t)
  {
    hide Reach, PlanOk;
    var t := WithClone(s, c, x);
    SameKeeps(s, t);
    assert CloneOk(s, s.clones[c]);
    forall plan | plan in x.plans
      ensures PlanOk(t, x, plan)
    {
      PlanStays(s, t, x, x, plan);
    }
    assert CloneOk(t, t.clones[c]);
    OthersStay(s, t, c);
  }

  lemma EndStep(s: State, c: nat, p: nat, status: Status)
    requires Inv(s) && c < |s.clones| && p < |s.clones[c].plans|
    requires PlanOk(s, s.clones[c], s.clones[c].plans[p].(status := status))
    ensures var t := WithClone(s, c, Ended(s.clones[c], p, status));
      Inv(t) && Keeps(s, t)
  {
    hide Reach, PlanOk;
    var x := s.clones[c];
    var y := Ended(x, p, status);
    assert CloneOk(s, x);
    forall plan | plan in y.plans
      ensures PlanOk(s, y, plan)
    {
      var i :| 0 <= i < |y.plans| && y.plans[i] == plan;
      if i != p {
        assert x.plans[i] == plan && plan in x.plans;
      }
      PlanOfClone(s, x, y, plan);
    }
    BookStep(s, c, y);
  }

  lemma PlanOfClone(s: State, x: Clone, y: Clone, plan: Plan)
    requires Grounded(s.dag) && PlanOk(s, x, plan) && y.branch == x.branch && y.head == x.head
    ensures PlanOk(s, y, plan)
  {
    hide Reach;
  }

  lemma NotComplete(s: State, x: Clone, plan: Plan, status: Status)
    requires Grounded(s.dag) && PlanOk(s, x, plan) && status != Complete
    ensures PlanOk(s, x, plan.(status := status))
  {
    hide Reach;
  }

  lemma PhaseStep(s: State, c: nat, phase: Phase)
    requires Inv(s) && c < |s.clones| && PhaseOk(s.clones[c].(phase := phase))
    ensures var t := WithClone(s, c, s.clones[c].(phase := phase));
      Inv(t) && Keeps(s, t)
  {
    hide Reach, PlanOk;
    var x := s.clones[c];
    assert CloneOk(s, x);
    forall plan | plan in x.plans
      ensures PlanOk(s, x.(phase := phase), plan)
    {
      PlanOfClone(s, x, x.(phase := phase), plan);
    }
    BookStep(s, c, x.(phase := phase));
  }

  /** Adding a commit on top of a clone's head. */
  lemma CommitStep(s: State, c: nat, merged: set<nat>)
    requires Inv(s) && c < |s.clones| && forall m <- merged :: m < |s.dag|
    ensures Inv(Act(s, Commit(c, merged))) && Keeps(s, Act(s, Commit(c, merged)))
  {
    hide PlanOk;
    var x := s.clones[c];
    assert CloneOk(s, x);
    var parents := merged + if x.head.Some? then {x.head.value} else {};
    var t := Act(s, Commit(c, merged));
    var n: nat := |s.dag|;
    assert t == WithClone(s.(dag := s.dag + [parents]), c, x.(head := Some(n)));
    Grows(s.dag, parents);
    if x.head.Some? {
      assert x.head.value in t.dag[n];
      assert Reach(t.dag, x.head.value) <= Reach(t.dag, n);
    }
    hide Reach;
    forall i | 0 <= i < |s.clones|
      ensures TipOk(t.dag, t.clones[i].head)
    {
      assert CloneOk(s, s.clones[i]);
    }
    assert HeadKept(s, t, c);
    forall plan | plan in x.plans
      ensures PlanOk(t, t.clones[c], plan)
    {
      PlanStays(s, t, x, t.clones[c], plan);
    }
    assert CloneOk(t, t.clones[c]);
    forall i | 0 <= i < |s.clones| ensures HeadKept(s, t, i) { assert CloneOk(s, s.clones[i]); }
    OthersStay(s, t, c);
  }

  lemma Grows(dag: Dag, parents: set<nat>)
    requires Grounded(dag) && forall p <- parents :: p < |dag|
    ensures Grounded(dag + [parents]) && Extends(dag, dag + [parents])
  {
    var more := dag + [parents];
    forall i | 0 <= i < |more| ensures forall p <- more[i] :: p < i {
      if i < |dag| {
        assert more[i] == dag[i];
      }
    }
    forall tip: nat | tip < |dag| ensures Reach(more, tip) == Reach(dag, tip) {
      ReachExtends(dag, parents, tip);
    }
  }

  lemma PreviewStep(s: State, c: nat, push: bool)
    requires Inv(s) && c < |s.clones|
    ensures Inv(Act(s, Preview(c, push))) && Keeps(s, Act(s, Preview(c, push)))
  {
    hide Reach;
    var x := s.clones[c];
    assert CloneOk(s, x);
    var seen := Tip(s, x.branch);
    var plan := Plan(push, x.branch, x.head, seen, Prepared);
    var y := x.(plans := x.plans + [plan]);
    if Act(s, Preview(c, push)) == WithClone(s, c, y) && Act(s, Preview(c, push)) != s {
      assert PlanOk(s, y, plan);
      forall q | q in y.plans
        ensures PlanOk(s, y, q)
      {
        if q in x.plans {
          PlanOfClone(s, x, y, q);
        }
      }
      BookStep(s, c, y);
    } else {
      SameKeeps(s, s);
    }
  }

  lemma BeginStep(s: State, c: nat, p: nat)
    requires Inv(s) && c < |s.clones|
    ensures Inv(AfterBegin(s, c, p)) && Keeps(s, AfterBegin(s, c, p))
  {
    hide Reach, PlanOk;
    var x := s.clones[c];
    assert CloneOk(s, x);
    var t := AfterBegin(s, c, p);
    if t == s {
      SameKeeps(s, s);
    } else {
      var y := t.clones[c];
      forall q | q in y.plans
        ensures PlanOk(s, y, q)
      {
        var i :| 0 <= i < |y.plans| && y.plans[i] == q;
        assert x.plans[i] in x.plans;
        NotComplete(s, x, x.plans[p], Applying);
        PlanOfClone(s, x, y, if i == p then x.plans[p].(status := Applying) else x.plans[i]);
      }
      assert t == WithClone(s, c, y);
      BookStep(s, c, y);
    }
  }

  /** The second ancestry check cannot refuse: history never changes once the preview proved it. */
  lemma AncestryStep(s: State, c: nat)
    requires Inv(s) && c < |s.clones|
    ensures Inv(AfterAncestry(s, c)) && Keeps(s, AfterAncestry(s, c))
    ensures s.clones[c].phase.PushBegun? ==> AfterAncestry(s, c).clones[c].phase.PushChecked?
  {
    hide Reach;
    var x := s.clones[c];
    assert CloneOk(s, x);
    if x.phase.PushBegun? {
      assert x.plans[x.phase.p] in x.plans;
      assert PlanOk(s, x, x.plans[x.phase.p]);
      PhaseStep(s, c, PushChecked(x.phase.p));
    } else {
      SameKeeps(s, s);
    }
  }

  /** The leased push only ever moves the remote branch forward. */
  lemma SendStep(s: State, c: nat, delivered: bool, reported: bool)
    requires Inv(s) && c < |s.clones|
    ensures Inv(AfterSend(s, c, delivered, reported)) && Keeps(s, AfterSend(s, c, delivered, reported))
  {
    hide Reach, PlanOk;
    var x := s.clones[c];
    assert CloneOk(s, x);
    if !x.phase.PushChecked? {
      SameKeeps(s, s);
      return;
    }
    var p := x.phase.p;
    var plan := x.plans[p];
    assert plan in x.plans;
    PushPlanOk(s, x, plan);
    var moved := delivered && Takes(s, plan);
    if moved {
      var u := s.(remote := s.remote[plan.branch := plan.head.value]);
      if Tip(s, plan.branch) == plan.seen {
        RemoteMoves(s, plan);
      } else {
        assert u.remote == s.remote && u == s;
        SameKeeps(s, u);
      }
      assert u.clones == s.clones;
      NotComplete(u, x, plan, Partial) by { assert CloneOk(u, u.clones[c]); }
      if reported {
        PhaseStep(u, c, PushSent(p));
      } else {
        EndStep(u, c, p, Partial);
      }
      KeepsTrans(s, u, AfterSend(s, c, delivered, reported));
    } else {
      NotComplete(s, x, plan, Partial);
      EndStep(s, c, p, Partial);
    }
  }

  lemma PushPlanOk(s: State, x: Clone, plan: Plan)
    requires Grounded(s.dag) && PlanOk(s, x, plan) && plan.push
    ensures plan.head.Some? && plan.head.value < |s.dag|
    ensures plan.seen.Some? ==> IsAncestor(s.dag, plan.seen.value, plan.head.value)
  {
    hide Reach;
  }

  lemma RemoteMoves(s: State, plan: Plan)
    requires Inv(s) && plan.push && plan.head.Some? && plan.head.value < |s.dag|
    requires Tip(s, plan.branch) == plan.seen
    requires plan.seen.Some? ==> IsAncestor(s.dag, plan.seen.value, plan.head.value)
    ensures var u := s.(remote := s.remote[plan.branch := plan.head.value]);
      Inv(u) && Keeps(s, u)
  {
    var u := s.(remote := s.remote[plan.branch := plan.head.value]);
    if plan.seen.Some? {
      ReachTrans(s.dag, plan.seen.value, plan.head.value);
    }
    hide Reach, PlanOk;
    forall i | 0 <= i < |s.clones|
      ensures TipOk(s.dag, s.clones[i].head)
    {
      assert CloneOk(s, s.clones[i]);
    }
    forall i | 0 <= i < |u.clones|
      ensures CloneOk(u, u.clones[i])
    {
      assert CloneOk(s, s.clones[i]);
      forall q | q in u.clones[i].plans
        ensures PlanOk(u, u.clones[i], q)
      {
        PlanStays(s, u, s.clones[i], u.clones[i], q);
      }
    }
  }

  lemma KeepsTrans(s: State, t: State, u: State)
    requires Inv(s) && Inv(t) && Inv(u) && HeadsOk(s) && HeadsOk(t) && HeadsOk(u)
    requires Keeps(s, t) && Keeps(t, u)
    ensures Keeps(s, u)
  {
    hide Reach;
    forall i | 0 <= i < |s.clones|
      ensures HeadKept(s, u, i)
    {
      assert HeadKept(s, t, i) && HeadKept(t, u, i);
    }
  }

  /** A push is recorded complete only when its own head is what the remote branch holds. */
  lemma VerifyStep(s: State, c: nat)
    requires Inv(s) && c < |s.clones|
    ensures Inv(Act(s, Verify(c))) && Keeps(s, Act(s, Verify(c)))
    ensures s.clones[c].phase.PushSent? ==>
              var p := s.clones[c].phase.p;
              (Act(s, Verify(c)).clones[c].plans[p].status == Complete <==> Tip(s, s.clones[c].branch) == s.clones[c].plans[p].head)
  {
    hide Reach;
    var x := s.clones[c];
    assert CloneOk(s, x);
    if x.phase.PushSent? {
      var p := x.phase.p;
      var plan := x.plans[p];
      assert plan in x.plans && PlanOk(s, x, plan);
      var status := if Tip(s, plan.branch) == plan.head then Complete else Partial;
      if status == Complete {
        SelfReach(s.dag, plan.head.value);
      }
      assert PlanOk(s, x, plan.(status := status));
      EndStep(s, c, p, status);
    } else {
      SameKeeps(s, s);
    }
  }

  lemma SelfReach(dag: Dag, tip: nat)
    requires Grounded(dag) && tip < |dag|
    ensures IsAncestor(dag, tip, tip)
  {
  }

  lemma FetchStep(s: State, c: nat, fine: bool)
    requires Inv(s) && c < |s.clones|
    ensures Inv(Act(s, Fetch(c, fine))) && Keeps(s, Act(s, Fetch(c, fine)))
  {
    hide Reach, PlanOk;
    var x := s.clones[c];
    assert CloneOk(s, x);
    if x.phase.PullBegun? {
      assert x.plans[x.phase.p] in x.plans;
      NotComplete(s, x, x.plans[x.phase.p], Partial);
      if fine {
        PhaseStep(s, c, PullFetched(x.phase.p));
      } else {
        EndStep(s, c, x.phase.p, Partial);
      }
    } else {
      SameKeeps(s, s);
    }
  }

  lemma RecheckStep(s: State, c: nat)
    requires Inv(s) && c < |s.clones|
    ensures Inv(Act(s, Recheck(c))) && Keeps(s, Act(s, Recheck(c)))
  {
    hide Reach, PlanOk;
    var x := s.clones[c];
    assert CloneOk(s, x);
    if x.phase.PullFetched? {
      assert x.plans[x.phase.p] in x.plans;
      NotComplete(s, x, x.plans[x.phase.p], Partial);
      if x.head == x.plans[x.phase.p].head {
        PhaseStep(s, c, PullRechecked(x.phase.p));
      } else {
        EndStep(s, c, x.phase.p, Partial);
      }
    } else {
      SameKeeps(s, s);
    }
  }

  lemma PullPlanOk(s: State, x: Clone, plan: Plan)
    requires Grounded(s.dag) && PlanOk(s, x, plan) && !plan.push
    ensures plan.seen.Some? && plan.seen.value < |s.dag|
  {
    hide Reach;
  }

  /** A fast-forward never drops what a head could reach. */
  lemma MergeStep(s: State, c: nat)
    requires Inv(s) && c < |s.clones| && TipOk(s.dag, s.clones[c].head)
    ensures Inv(AfterMerge(s, c)) && Keeps(s, AfterMerge(s, c))
  {
    hide Reach, PlanOk, IsAncestor;
    var x := s.clones[c];
    assert CloneOk(s, x);
    if !x.phase.PullRechecked? {
      SameKeeps(s, s);
      return;
    }
    var p := x.phase.p;
    var plan := x.plans[p];
    assert plan in x.plans;
    PullPlanOk(s, x, plan);
    var target := plan.seen.value;
    if x.head.Some? && IsAncestor(s.dag, target, x.head.value) {
      PhaseStep(s, c, PullMerged(p));
    } else if x.head.None? || IsAncestor(s.dag, x.head.value, target) {
      var y := x.(head := Some(target));
      HeadMoves(s, c, target);
      PhaseStep(WithClone(s, c, y), c, PullMerged(p));
      assert WithClone(WithClone(s, c, y), c, y.(phase := PullMerged(p))) == AfterMerge(s, c);
      HeadsFine(s);
      HeadsFine(WithClone(s, c, y));
      HeadsFine(AfterMerge(s, c));
      KeepsTrans(s, WithClone(s, c, y), AfterMerge(s, c));
    } else {
      NotComplete(s, x, plan, Partial);
      EndStep(s, c, p, Partial);
    }
  }

  lemma HeadsFine(s: State)
    requires Inv(s)
    ensures HeadsOk(s)
  {
    hide Reach, PlanOk;
    forall i | 0 <= i < |s.clones|
      ensures TipOk(s.dag, s.clones[i].head)
    {
      assert CloneOk(s, s.clones[i]);
    }
  }

  lemma HeadMoves(s: State, c: nat, target: nat)
    requires Inv(s) && c < |s.clones| && target < |s.dag| && TipOk(s.dag, s.clones[c].head)
    requires s.clones[c].head.Some? ==> IsAncestor(s.dag, s.clones[c].head.value, target)
    ensures var t := WithClone(s, c, s.clones[c].(head := Some(target)));
      Inv(t) && Keeps(s, t)
  {
    var x := s.clones[c];
    var t := WithClone(s, c, x.(head := Some(target)));
    if x.head.Some? {
      ReachTrans(s.dag, x.head.value, target);
    }
    hide Reach, PlanOk;
    assert CloneOk(s, x);
    HeadsFine(s);
    assert HeadKept(s, t, c);
    forall i | 0 <= i < |s.clones| ensures HeadKept(s, t, i) { }
    assert Keeps(s, t);
    forall plan | plan in x.plans
      ensures PlanOk(t, t.clones[c], plan)
    {
      PlanStays(s, t, x, t.clones[c], plan);
    }
    assert CloneOk(t, t.clones[c]);
    OthersStay(s, t, c);
  }

  /** A pull is recorded complete only when the clone's head is exactly the pinned remote commit. */
  lemma ReadBackStep(s: State, c: nat)
    requires Inv(s) && c < |s.clones|
    ensures Inv(Act(s, ReadBack(c))) && Keeps(s, Act(s, ReadBack(c)))
  {
    hide Reach;
    var x := s.clones[c];
    assert CloneOk(s, x);
    if x.phase.PullMerged? {
      var p := x.phase.p;
      var plan := x.plans[p];
      assert plan in x.plans && PlanOk(s, x, plan);
      var status := if x.head == plan.seen then Complete else Partial;
      if status == Complete {
        SelfReach(s.dag, plan.seen.value);
      }
      assert PlanOk(s, x, plan.(status := status));
      EndStep(s, c, p, status);
    } else {
      SameKeeps(s, s);
    }
  }

  /** Every step of every clone keeps the invariant and everything reachable. */
  lemma SyncStep(s: State, a: Action)
    requires Inv(s)
    ensures Inv(Act(s, a)) && HeadsOk(s) && HeadsOk(Act(s, a)) && Keeps(s, Act(s, a))
  {
    hide Reach, PlanOk, IsAncestor, CloneOk, Keeps, AfterSend, AfterMerge, AfterAncestry, AfterPreview, AfterBegin;
    HeadsFine(s);
    SameKeeps(s, s);
    if a.c < |s.clones| {
      match a {
        case Commit(c, merged) =>
          if forall m <- merged :: m < |s.dag| {
            CommitStep(s, c, merged);
          }
        case Preview(c, push) => PreviewStep(s, c, push);
        case Begin(c, p) => BeginStep(s, c, p);
        case Ancestry(c) => AncestryStep(s, c);
        case Send(c, delivered, reported) => SendStep(s, c, delivered, reported);
        case Verify(c) => VerifyStep(s, c);
        case Fetch(c, fine) => FetchStep(s, c, fine);
        case Recheck(c) => RecheckStep(s, c);
        case Merge(c) => MergeStep(s, c);
        case ReadBack(c) => ReadBackStep(s, c);
        case Crash(c) => PhaseStep(s, c, Idle);
      }
    }
    HeadsFine(Act(s, a));
  }

  // ---------------------------------------------------------------- whole runs

  function Run(s: State, schedule: seq<Action>): State
    requires Inv(s)
    decreases |schedule|
  {
    if schedule == [] then s
    else
      SyncStep(s, schedule[0]);
      Run(Act(s, schedule[0]), schedule[1..])
  }

  /** However the steps of the clones interleave, nothing reachable is ever lost. */
  lemma {:induction false} RunKeeps(s: State, schedule: seq<Action>)
    requires Inv(s)
    ensures Inv(Run(s, schedule)) && HeadsOk(s) && HeadsOk(Run(s, schedule)) && Keeps(s, Run(s, schedule))
    decreases |schedule|
  {
    hide Reach, PlanOk, IsAncestor, CloneOk, Keeps, Act;
    if schedule == [] {
      HeadsFine(s);
      SameKeeps(s, s);
    } else {
      SyncStep(s, schedule[0]);
      var t := Act(s, schedule[0]);
      RunKeeps(t, schedule[1..]);
      KeepsTrans(s, t, Run(s, schedule));
    }
  }

  /** A push recorded complete has its head on the remote branch, then and at every later moment. */
  lemma CompletePushIsPublished(s: State, schedule: seq<Action>, c: nat, p: nat)
    requires Inv(s) && c < |s.clones| && p < |s.clones[c].plans|
    requires var plan := s.clones[c].plans[p]; plan.push && plan.status == Complete
    ensures var plan := s.clones[c].plans[p]; var tip := Tip(Run(s, schedule), plan.branch);
      plan.head.Some? && Grounded(Run(s, schedule).dag) && tip.Some? && IsAncestor(Run(s, schedule).dag, plan.head.value, tip.value)
  {
    var plan := s.clones[c].plans[p];
    assert CloneOk(s, s.clones[c]) && plan in s.clones[c].plans && PlanOk(s, s.clones[c], plan);
    Published(s, schedule, plan.branch, plan.head.value);
  }

  lemma Published(s: State, schedule: seq<Action>, branch: string, commit: nat)
    requires Inv(s) && branch in s.remote && IsAncestor(s.dag, commit, s.remote[branch])
    ensures var t := Run(s, schedule);
      Inv(t) && branch in t.remote && IsAncestor(t.dag, commit, t.remote[branch])
  {
    RunKeeps(s, schedule);
    hide Reach, Run, CloneOk;
  }

  /** A push that reached the remote stays published, even when its report was lost or another push came before it was verified. */
  lemma DeliveredStays(s: State, c: nat, reported: bool, schedule: seq<Action>)
    requires Inv(s) && c < |s.clones| && s.clones[c].phase.PushChecked?
    requires var p := s.clones[c].phase.p;
      p < |s.clones[c].plans| && Takes(s, s.clones[c].plans[p])
    ensures var plan := s.clones[c].plans[s.clones[c].phase.p];
      var mid := AfterSend(s, c, true, reported);
      && plan.head.Some? && Inv(mid)
      && var t := Run(mid, schedule);
      && Inv(t) && plan.branch in t.remote && IsAncestor(t.dag, plan.head.value, t.remote[plan.branch])
  {
    hide Reach, PlanOk, Run;
    var x := s.clones[c];
    assert CloneOk(s, x);
    var plan := x.plans[x.phase.p];
    assert plan in x.plans;
    PushPlanOk(s, x, plan);
    SendStep(s, c, true, reported);
    var mid := AfterSend(s, c, true, reported);
    SelfReach(mid.dag, plan.head.value);
    Published(mid, schedule, plan.branch, plan.head.value);
  }

  lemma {:induction false} ReachIsOlder(dag: Dag, a: nat, b: nat)
    requires Grounded(dag) && IsAncestor(dag, a, b)
    ensures a <= b
    decreases b
  {
    if a != b {
      var p :| p in dag[b] && a in Reach(dag, p);
      ReachIsOlder(dag, a, p);
    }
  }

  /** A lease once broken stays broken: the branch never comes back to a commit it has left. */
  lemma BrokenLease(s: State, first: seq<Action>, second: seq<Action>, branch: string)
    requires Inv(s) && branch in s.remote && Inv(Run(s, first))
    requires Tip(Run(s, first), branch) != Some(s.remote[branch])
    ensures Inv(Run(Run(s, first), second))
    ensures Tip(Run(Run(s, first), second), branch) != Some(s.remote[branch])
  {
    hide *;
    var seen := s.remote[branch];
    BranchHeld(s, branch);
    Published(s, first, branch, seen);
    var mid := Run(s, first);
    TipIs(mid, branch);
    BranchHeld(mid, branch);
    Older(mid, seen, mid.remote[branch]);
    Published(mid, second, branch, mid.remote[branch]);
    var t := Run(mid, second);
    TipIs(t, branch);
    BranchHeld(t, branch);
    Older(t, mid.remote[branch], t.remote[branch]);
  }

  lemma BranchHeld(s: State, branch: string)
    requires Inv(s) && branch in s.remote
    ensures Grounded(s.dag) && s.remote[branch] < |s.dag| && IsAncestor(s.dag, s.remote[branch], s.remote[branch])
  {
    SelfReach(s.dag, s.remote[branch]);
    hide Reach, CloneOk;
  }

  lemma TipIs(s: State, branch: string)
    ensures branch in s.remote ==> Tip(s, branch) == Some(s.remote[branch])
  {
  }

  lemma Older(s: State, a: nat, b: nat)
    requires Grounded(s.dag) && b < |s.dag| && IsAncestor(s.dag, a, b)
    ensures a <= b
  {
    ReachIsOlder(s.dag, a, b);
  }

  /** Alone, a current pull completes exactly when the clone has nothing of its own beyond the remote commit. */
  lemma PullAlone(s: State, c: nat, p: nat)
    requires Inv(s) && c < |s.clones| && s.clones[c].phase == Idle && p < |s.clones[c].plans|
    requires var plan := s.clones[c].plans[p];
      !plan.push && plan.status == Prepared && plan.head == s.clones[c].head && Tip(s, plan.branch) == plan.seen
    ensures var x := s.clones[c]; var t := Run(s, [Begin(c, p), Fetch(c, true), Recheck(c), Merge(c), ReadBack(c)]);
      && Inv(t) && |t.clones| == |s.clones| && p < |t.clones[c].plans| && x.plans[p].seen.Some?
      && (t.clones[c].plans[p].status == Complete
          <==> x.head.None? || IsAncestor(s.dag, x.head.value, x.plans[p].seen.value))
      && t.clones[c].plans[p].status in {Complete, Partial}
  {
    hide Reach, IsAncestor, PlanOk;
    var x := s.clones[c];
    assert CloneOk(s, x);
    var plan := x.plans[p];
    assert plan in x.plans;
    PullPlanOk(s, x, plan);
    var s1 := Act(s, Begin(c, p));
    SyncStep(s, Begin(c, p));
    var s2 := Act(s1, Fetch(c, true));
    SyncStep(s1, Fetch(c, true));
    var s3 := Act(s2, Recheck(c));
    SyncStep(s2, Recheck(c));
    assert s3.dag == s.dag && s3.clones[c].head == x.head && s3.clones[c].phase == PullRechecked(p);
    assert s3.clones[c].plans[p] == plan.(status := Applying) && |s3.clones[c].plans| == |x.plans|;
    var s4 := Act(s3, Merge(c));
    SyncStep(s3, Merge(c));
    var s5 := Act(s4, ReadBack(c));
    SyncStep(s4, ReadBack(c));
    FiveSteps(s, Begin(c, p), Fetch(c, true), Recheck(c), Merge(c), ReadBack(c));
    if x.head.Some? {
      OneWay(s.dag, x.head.value, plan.seen.value);
    }
    MergeOutcome(s3, s4, s5, c, p, x.head, plan.seen.value);
  }

  lemma FiveSteps(s: State, a: Action, b: Action, c: Action, d: Action, e: Action)
    requires Inv(s)
    ensures Inv(Act(s, a)) && Inv(Act(Act(s, a), b)) && Inv(Act(Act(Act(s, a), b), c)) && Inv(Act(Act(Act(Act(s, a), b), c), d))
    ensures Run(s, [a, b, c, d, e]) == Act(Act(Act(Act(Act(s, a), b), c), d), e)
  {
    hide Act, Reach, PlanOk, CloneOk, Keeps;
    var s1 := Act(s, a);
    SyncStep(s, a);
    var s2 := Act(s1, b);
    SyncStep(s1, b);
    var s3 := Act(s2, c);
    SyncStep(s2, c);
    var s4 := Act(s3, d);
    SyncStep(s3, d);
    SyncStep(s4, e);
    assert [a, b, c, d, e][1..] == [b, c, d, e] && [b, c, d, e][1..] == [c, d, e] && [c, d, e][1..] == [d, e] && [d, e][1..] == [e];
    assert Run(Act(s4, e), []) == Act(s4, e);
    assert Run(s4, [e]) == Act(s4, e);
    assert Run(s3, [d, e]) == Act(s4, e);
    assert Run(s2, [c, d, e]) == Act(s4, e);
  }

  /** Two different commits are never each other's ancestor. */
  lemma OneWay(dag: Dag, a: nat, b: nat)
    requires Grounded(dag)
    ensures IsAncestor(dag, a, b) && IsAncestor(dag, b, a) ==> a == b
    ensures a == b && b < |dag| ==> IsAncestor(dag, a, b)
  {
    if IsAncestor(dag, a, b) && IsAncestor(dag, b, a) {
      ReachIsOlder(dag, a, b);
      ReachIsOlder(dag, b, a);
    }
    if a == b && b < |dag| {
      SelfReach(dag, a);
    }
  }

  lemma MergeOutcome(s: State, t: State, u: State, c: nat, p: nat, head: Option<nat>, seen: nat)
    requires Inv(s) && Inv(t) && c < |s.clones| && t == Act(s, Merge(c)) && u == Act(t, ReadBack(c))
    requires s.clones[c].phase == PullRechecked(p) && p < |s.clones[c].plans| && s.clones[c].head == head
    requires s.clones[c].plans[p].seen == Some(seen)
    requires head.Some? ==>
              (IsAncestor(s.dag, head.value, seen) && IsAncestor(s.dag, seen, head.value) ==> head.value == seen)
    requires head.Some? && head.value == seen && seen < |s.dag| ==> IsAncestor(s.dag, head.value, seen)
    requires seen < |s.dag|
    ensures |u.clones| == |s.clones| && p < |u.clones[c].plans|
    ensures u.clones[c].plans[p].status == Complete <==> head.None? || IsAncestor(s.dag, head.value, seen)
    ensures u.clones[c].plans[p].status in {Complete, Partial}
  {
    HeadsFine(s);
    hide Reach, IsAncestor, PlanOk, CloneOk;
    assert Act(s, Merge(c)) == AfterMerge(s, c);
  }

  // ---------------------------------------------------------------- the operations

  /** What anyone else may do while clone `c` applies a plan: all the other clones' steps, and commits in clone `c`. */
  predicate Elsewhere(schedule: seq<Action>, c: nat) {
    forall a <- schedule :: a.c != c || a.Commit?
  }

  lemma {:induction false} ElsewhereLeaves(s: State, schedule: seq<Action>, c: nat)
    requires Inv(s) && c < |s.clones| && Elsewhere(schedule, c)
    ensures Inv(Run(s, schedule)) && |Run(s, schedule).clones| == |s.clones|
    ensures Run(s, schedule).clones[c] == s.clones[c].(head := Run(s, schedule).clones[c].head)
    decreases |schedule|
  {
    hide Reach, PlanOk, IsAncestor, CloneOk, Keeps, Act;
    if schedule != [] {
      var t := Act(s, schedule[0]);
      SyncStep(s, schedule[0]);
      OneElsewhere(s, schedule[0], c);
      ElsewhereLeaves(t, schedule[1..], c);
    }
  }

  lemma OneElsewhere(s: State, a: Action, c: nat)
    requires Inv(s) && c < |s.clones| && (a.c != c || a.Commit?)
    ensures |Act(s, a).clones| == |s.clones|
    ensures Act(s, a).clones[c] == s.clones[c].(head := Act(s, a).clones[c].head)
  {
    hide Reach, PlanOk, IsAncestor;
  }

  /** The apply is over: only plan `p` changed, and it has a last status. */
  predicate Settled(x: Clone, y: Clone, p: nat)
    requires p < |x.plans|
  {
    && |y.plans| == |x.plans| && y.phase == Idle && y.branch == x.branch
    && y.plans == x.plans[p := x.plans[p].(status := y.plans[p].status)]
    && (y.plans[p].status == Complete || y.plans[p].status == Partial)
  }

  lemma SettledFrom(w: Clone, x: Clone, y: Clone, p: nat)
    requires w.plans == x.plans && w.branch == x.branch && p < |x.plans| && Settled(x, y, p)
    ensures p < |w.plans| && Settled(w, y, p)
  {
  }

  lemma EndedIsSettled(x: Clone, p: nat, status: Status)
    requires p < |x.plans| && (status == Complete || status == Partial)
    ensures Settled(x, Ended(x, p, status), p) && Ended(x, p, status).phase == Idle
  {
  }

  lemma Start(s: State)
    requires Inv(s)
    ensures HeadsOk(s) && Keeps(s, s)
  {
    HeadsFine(s);
    SameKeeps(s, s);
  }

  lemma Linked(s: State, t: State, u: State, c: nat)
    requires Inv(s) && Inv(t) && Inv(u) && HeadsOk(s) && HeadsOk(t) && HeadsOk(u)
    requires Keeps(s, t) && Keeps(t, u) && c < |t.clones|
    ensures Keeps(s, u) && c < |u.clones|
  {
    KeepsTrans(s, t, u);
    hide Reach;
  }

  lemma BeginShape(s: State, c: nat, p: nat)
    requires Inv(s) && c < |s.clones| && p < |s.clones[c].plans| && s.clones[c].phase == Idle && c < |Act(s, Begin(c, p)).clones|
    ensures var x := s.clones[c]; var y := Act(s, Begin(c, p)).clones[c]; var plan := x.plans[p];
      y == x || y == x.(plans := x.plans[p := plan.(status := Applying)], phase := if plan.push then PushBegun(p) else PullBegun(p))
    ensures var x := s.clones[c]; var plan := x.plans[p];
      if plan.status == Prepared && x.head == plan.head && Tip(s, plan.branch) == plan.seen
      then Act(s, Begin(c, p)).clones[c].phase != Idle && Act(s, Begin(c, p)).remote == s.remote && Act(s, Begin(c, p)).dag == s.dag
      else Act(s, Begin(c, p)) == s
  {
    hide Reach, PlanOk, CloneOk;
  }

  lemma AncestryShape(s: State, c: nat, p: nat)
    requires Inv(s) && c < |s.clones| && p < |s.clones[c].plans| && s.clones[c].phase == PushBegun(p) && c < |Act(s, Ancestry(c)).clones|
    ensures Act(s, Ancestry(c)).clones[c] == s.clones[c].(phase := PushChecked(p)) && Act(s, Ancestry(c)).remote == s.remote
  {
    AncestryStep(s, c);
    hide Reach, PlanOk, CloneOk, IsAncestor;
  }

  /** A step that either moves on to phase `next` or ends the apply. */
  predicate MovesOn(x: Clone, y: Clone, p: nat, next: Phase)
    requires p < |x.plans|
  {
    (y.plans == x.plans && y.branch == x.branch && y.phase == next && next != Idle) || Settled(x, y, p)
  }

  lemma SendShape(s: State, c: nat, p: nat, delivered: bool, reported: bool)
    requires Inv(s) && c < |s.clones| && p < |s.clones[c].plans| && s.clones[c].phase == PushChecked(p)
    requires c < |Act(s, Send(c, delivered, reported)).clones|
    ensures MovesOn(s.clones[c], Act(s, Send(c, delivered, reported)).clones[c], p, PushSent(p))
    ensures var x, t := s.clones[c], Act(s, Send(c, delivered, reported)); var plan := x.plans[p];
      if Takes(s, plan) && delivered && reported
      then t.clones[c].phase == PushSent(p) && Tip(t, plan.branch) == plan.head
      else t.clones[c] == Ended(x, p, Partial)
  {
    var x := s.clones[c];
    assert CloneOk(s, x) && x.plans[p] in x.plans;
    PushPlanOk(s, x, x.plans[p]);
    EndedIsSettled(x, p, Partial);
    hide Reach, PlanOk, CloneOk, Settled;
  }

  lemma VerifyShape(s: State, c: nat, p: nat)
    requires Inv(s) && c < |s.clones| && p < |s.clones[c].plans| && s.clones[c].phase == PushSent(p) && c < |Act(s, Verify(c)).clones|
    ensures Settled(s.clones[c], Act(s, Verify(c)).clones[c], p)
    ensures Act(s, Verify(c)).clones[c].plans[p].status == Complete <==>
            Tip(s, s.clones[c].plans[p].branch) == s.clones[c].plans[p].head
  {
    hide Reach, PlanOk;
  }

  lemma FetchShape(s: State, c: nat, p: nat, fine: bool)
    requires Inv(s) && c < |s.clones| && p < |s.clones[c].plans| && s.clones[c].phase == PullBegun(p) && c < |Act(s, Fetch(c, fine)).clones|
    ensures MovesOn(s.clones[c], Act(s, Fetch(c, fine)).clones[c], p, PullFetched(p))
    ensures var x, t := s.clones[c], Act(s, Fetch(c, fine));
      t.dag == s.dag && t.clones[c] == if fine then x.(phase := PullFetched(p)) else Ended(x, p, Partial)
  {
    hide Reach, PlanOk;
  }

  lemma RecheckShape(s: State, c: nat, p: nat)
    requires Inv(s) && c < |s.clones| && p < |s.clones[c].plans| && s.clones[c].phase == PullFetched(p) && c < |Act(s, Recheck(c)).clones|
    ensures MovesOn(s.clones[c], Act(s, Recheck(c)).clones[c], p, PullRechecked(p))
    ensures var x, t := s.clones[c], Act(s, Recheck(c));
      t.dag == s.dag && t.clones[c] == if x.head == x.plans[p].head then x.(phase := PullRechecked(p)) else Ended(x, p, Partial)
  {
    hide Reach, PlanOk;
  }

  lemma MergeShape(s: State, c: nat, p: nat)
    requires Inv(s) && c < |s.clones| && p < |s.clones[c].plans| && s.clones[c].phase == PullRechecked(p) && c < |Act(s, Merge(c)).clones|
    ensures MovesOn(s.clones[c], Act(s, Merge(c)).clones[c], p, PullMerged(p))
  {
    HeadsFine(s);
    var x := s.clones[c];
    assert CloneOk(s, x) && x.plans[p] in x.plans;
    PullPlanOk(s, x, x.plans[p]);
    hide Reach, PlanOk, CloneOk, IsAncestor;
    assert Act(s, Merge(c)) == AfterMerge(s, c);
  }

  lemma ReadBackShape(s: State, c: nat, p: nat)
    requires Inv(s) && c < |s.clones| && p < |s.clones[c].plans| && s.clones[c].phase == PullMerged(p) && c < |Act(s, ReadBack(c)).clones|
    ensures Settled(s.clones[c], Act(s, ReadBack(c)).clones[c], p)
  {
    hide Reach, PlanOk;
  }

  lemma Moved(x: Clone, y: Clone, p: nat, next: Phase)
    requires p < |x.plans| && MovesOn(x, y, p, next)
    ensures if y.phase == Idle then Settled(x, y, p) else y.plans == x.plans && y.branch == x.branch && y.phase == next
  {
  }

  lemma SettledParts(x: Clone, y: Clone, p: nat)
    requires p < |x.plans| && Settled(x, y, p)
    ensures |y.plans| == |x.plans| && y.phase == Idle && y.branch == x.branch
    ensures y.plans == x.plans[p := x.plans[p].(status := y.plans[p].status)]
    ensures y.plans[p].status == Complete || y.plans[p].status == Partial
  {
  }

  lemma Holds(s: State, c: nat, p: nat)
    requires Inv(s) && c < |s.clones| && p < |s.clones[c].plans|
    ensures PlanOk(s, s.clones[c], s.clones[c].plans[p])
  {
    hide PlanOk, Reach;
    assert CloneOk(s, s.clones[c]) && s.clones[c].plans[p] in s.clones[c].plans;
  }

  lemma NothingElsewhere(s: State, c: nat)
    requires Inv(s)
    ensures Elsewhere([], c) && Run(s, []) == s
  {
    hide Act;
  }

  /** What others do in gap number `n`; no gaps means that nobody else is active. */
  function GapAt(gaps: seq<seq<Action>>, n: nat): seq<Action> {
    if n < |gaps| then gaps[n] else []
  }

  lemma NoGaps(n: nat)
    ensures GapAt([], n) == []
  {
  }

  /** The status a prepared plan ends with when nobody else is active. */
  function Alone(s: State, c: nat, p: nat, fetched: bool, delivered: bool, reported: bool): Status
    requires Grounded(s.dag) && c < |s.clones| && p < |s.clones[c].plans|
  {
    var x, plan := s.clones[c], s.clones[c].plans[p];
    if x.head != plan.head || Tip(s, plan.branch) != plan.seen then Prepared
    else if plan.push then (if delivered && reported then Complete else Partial)
    else if fetched && FastForwards(s.dag, x.head, plan.seen) then Complete
    else Partial
  }

  predicate FastForwards(dag: Dag, head: Option<nat>, seen: Option<nat>)
    requires Grounded(dag)
  {
    seen.Some? && (head.None? || IsAncestor(dag, head.value, seen.value))
  }

  lemma AloneIs(s: State, c: nat, p: nat, fetched: bool, delivered: bool, reported: bool)
    requires Grounded(s.dag) && c < |s.clones| && p < |s.clones[c].plans|
    ensures var x, plan := s.clones[c], s.clones[c].plans[p]; var a := Alone(s, c, p, fetched, delivered, reported);
      && (x.head != plan.head || Tip(s, plan.branch) != plan.seen ==> a == Prepared)
      && (x.head == plan.head && Tip(s, plan.branch) == plan.seen && plan.push ==> a == if delivered && reported then Complete else Partial)
      && (x.head == plan.head && Tip(s, plan.branch) == plan.seen && !plan.push ==>
            a == if fetched && FastForwards(s.dag, x.head, plan.seen) then Complete else Partial)
  {
    hide IsAncestor, FastForwards;
  }

  class Archives {
    var state: State

    constructor (start: State)
      requires Inv(start)
      ensures state == start
    {
      state := start;
    }

    /** Everyone else, for as long as `gap` lasts. */
    method Others(c: nat, gap: seq<Action>)
      requires Inv(state) && c < |state.clones|
      modifies this
      ensures Inv(state) && HeadsOk(old(state)) && HeadsOk(state) && Keeps(old(state), state)
      ensures state.clones[c] == old(state).clones[c].(head := state.clones[c].head)
      ensures Elsewhere(gap, c) ==> state == Run(old(state), gap)
      ensures gap == [] ==> state == old(state)
    {
      hide *;
      var schedule := if Elsewhere(gap, c) then gap else [];
      NothingElsewhere(state, c);
      RunKeeps(state, schedule);
      ElsewhereLeaves(state, schedule, c);
      state := Run(state, schedule);
    }

    method Step(a: Action)
      requires Inv(state)
      modifies this
      ensures state == Act(old(state), a)
      ensures Inv(state) && HeadsOk(old(state)) && HeadsOk(state) && Keeps(old(state), state)
    {
      SyncStep(state, a);
      state := Act(state, a);
    }

    /** One apply; others may be active between any two of its steps, as `gaps` says. */
    method ApplySync(c: nat, p: nat, fetched: bool, delivered: bool, reported: bool, gaps: seq<seq<Action>>)
      returns (status: Status)
      requires Inv(state) && c < |state.clones| && p < |state.clones[c].plans| && state.clones[c].phase == Idle
      modifies this
      ensures Inv(state) && HeadsOk(old(state)) && HeadsOk(state) && Keeps(old(state), state)
      ensures p < |state.clones[c].plans|
      ensures state.clones[c].plans == old(state).clones[c].plans[p := old(state).clones[c].plans[p].(status := status)]
      ensures state.clones[c].phase == Idle
      ensures old(state).clones[c].plans[p].status != Prepared ==> status == old(state).clones[c].plans[p].status
      ensures old(state).clones[c].plans[p].status == Prepared ==>
                status == Prepared || status == Partial || status == Complete
      ensures PlanOk(state, state.clones[c], state.clones[c].plans[p])
      ensures gaps == [] && old(state).clones[c].plans[p].status == Prepared ==>
                status == Alone(old(state), c, p, fetched, delivered, reported)
    {
      hide *;
      ghost var s0 := state;
      Start(state);
      GroundedIs(state);
      AloneIs(state, c, p, fetched, delivered, reported);
      var was := state.clones[c].plans[p];
      NoGaps(0);
      Others(c, GapAt(gaps, 0));
      Linked(s0, s0, state, c);
      if was.status == Prepared {
        ghost var s1 := state;
        Step(Begin(c, p));
        Linked(s0, s1, state, c);
        BeginShape(s1, c, p);
        if state.clones[c].phase != Idle {
          ghost var begun := state.clones[c];
          ghost var s2 := state;
          TipSame(s1, s2, was.branch);
          TakesIs(s2, begun.plans[p]);
          GroundedIs(s2);
          if was.push {
            Push(c, p, s0, delivered, reported, gaps);
          } else {
            Pull(c, p, s0, fetched, gaps);
          }
          SettledParts(begun, state.clones[c], p);
        }
      }
      status := state.clones[c].plans[p].status;
      Holds(state, c, p);
    }

    /** The push branch. */
    method Push(c: nat, p: nat, ghost s0: State, delivered: bool, reported: bool, gaps: seq<seq<Action>>)
      requires Inv(state) && Inv(s0) && HeadsOk(s0) && HeadsOk(state) && Keeps(s0, state)
      requires c < |state.clones| && p < |state.clones[c].plans| && state.clones[c].phase == PushBegun(p)
      modifies this
      ensures Inv(state) && HeadsOk(s0) && HeadsOk(state) && Keeps(s0, state) && c < |state.clones|
      ensures Settled(old(state).clones[c], state.clones[c], p)
      ensures gaps == [] && Takes(old(state), old(state).clones[c].plans[p]) ==>
                p < |state.clones[c].plans| && (state.clones[c].plans[p].status == Complete <==> delivered && reported)
    {
      hide *;
      ghost var x := state.clones[c];
      ghost var s1 := state;
      NoGaps(1);
      NoGaps(2);
      NoGaps(3);
      Others(c, GapAt(gaps, 1));
      Linked(s0, s1, state, c);
      ghost var s2 := state;
      Step(Ancestry(c));
      Linked(s0, s2, state, c);
      AncestryShape(s2, c, p);
      TipSame(s2, state, x.plans[p].branch);
      TakesIs(s2, x.plans[p]);
      TakesIs(state, x.plans[p]);
      ghost var s3 := state;
      Others(c, GapAt(gaps, 2));
      Linked(s0, s3, state, c);
      ghost var s4 := state;
      Step(Send(c, delivered, reported));
      Linked(s0, s4, state, c);
      SendShape(s4, c, p, delivered, reported);
      EndedIsSettled(s4.clones[c], p, Partial);
      EndedStatus(s4.clones[c], p, Partial);
      Moved(s4.clones[c], state.clones[c], p, PushSent(p));
      if state.clones[c].phase != Idle {
        ghost var s5 := state;
        Others(c, GapAt(gaps, 3));
        Linked(s0, s5, state, c);
        ghost var s6 := state;
        Step(Verify(c));
        Linked(s0, s6, state, c);
        VerifyShape(s6, c, p);
        SettledFrom(x, s6.clones[c], state.clones[c], p);
      } else {
        SettledFrom(x, s4.clones[c], state.clones[c], p);
      }
      SettledParts(x, state.clones[c], p);
    }

    /** The pull branch. */
    method Pull(c: nat, p: nat, ghost s0: State, fetched: bool, gaps: seq<seq<Action>>)
      requires Inv(state) && Inv(s0) && HeadsOk(s0) && HeadsOk(state) && Keeps(s0, state)
      requires c < |state.clones| && p < |state.clones[c].plans| && state.clones[c].phase == PullBegun(p)
      modifies this
      ensures Inv(state) && HeadsOk(s0) && HeadsOk(state) && Keeps(s0, state) && c < |state.clones|
      ensures Settled(old(state).clones[c], state.clones[c], p)
      ensures Grounded(old(state).dag) && p < |state.clones[c].plans|
      ensures gaps == [] && old(state).clones[c].head == old(state).clones[c].plans[p].head ==>
                (state.clones[c].plans[p].status == Complete <==>
                  fetched && FastForwards(old(state).dag, old(state).clones[c].head, old(state).clones[c].plans[p].seen))
    {
      hide *;
      ghost var x := state.clones[c];
      ghost var s1 := state;
      GroundedIs(state);
      NoGaps(1);
      NoGaps(2);
      NoGaps(3);
      NoGaps(4);
      Others(c, GapAt(gaps, 1));
      Linked(s0, s1, state, c);
      ghost var s2 := state;
      Step(Fetch(c, fetched));
      Linked(s0, s2, state, c);
      FetchShape(s2, c, p, fetched);
      EndedStatus(s2.clones[c], p, Partial);
      Moved(s2.clones[c], state.clones[c], p, PullFetched(p));
      ghost var y := s2.clones[c];
      if state.clones[c].phase != Idle {
        ghost var s3 := state;
        Others(c, GapAt(gaps, 2));
        Linked(s0, s3, state, c);
        ghost var s4 := state;
        Step(Recheck(c));
        Linked(s0, s4, state, c);
        RecheckShape(s4, c, p);
        EndedStatus(s4.clones[c], p, Partial);
        Moved(s4.clones[c], state.clones[c], p, PullRechecked(p));
        y := s4.clones[c];
        if state.clones[c].phase != Idle {
          ghost var s5 := state;
          Others(c, GapAt(gaps, 3));
          Linked(s0, s5, state, c);
          ghost var s6 := state;
          Step(Merge(c));
          Linked(s0, s6, state, c);
          MergeShape(s6, c, p);
          MergeThenRead(s6, c, p);
          Moved(s6.clones[c], state.clones[c], p, PullMerged(p));
          y := s6.clones[c];
          if state.clones[c].phase != Idle {
            ghost var s7 := state;
            Others(c, GapAt(gaps, 4));
            Linked(s0, s7, state, c);
            ghost var s8 := state;
            Step(ReadBack(c));
            Linked(s0, s8, state, c);
            ReadBackShape(s8, c, p);
            y := s8.clones[c];
          }
        }
      }
      SettledFrom(x, y, state.clones[c], p);
      SettledParts(x, state.clones[c], p);
    }
  }

  lemma GroundedIs(s: State)
    requires Inv(s)
    ensures Grounded(s.dag)
  {
    hide Grounded, CloneOk;
  }

  lemma TipSame(s: State, t: State, branch: string)
    ensures t.remote == s.remote ==> Tip(t, branch) == Tip(s, branch)
  {
  }

  lemma TakesIs(s: State, plan: Plan)
    ensures Takes(s, plan) <==> Tip(s, plan.branch) == plan.seen || Tip(s, plan.branch) == plan.head
  {
  }

  lemma EndedStatus(x: Clone, p: nat, status: Status)
    requires p < |x.plans|
    ensures Ended(x, p, status).phase == Idle && |Ended(x, p, status).plans| == |x.plans| && Ended(x, p, status).plans[p].status == status
  {
  }

  /** Merging and then reading back, undisturbed, completes exactly on a fast-forward. */
  lemma MergeThenRead(s: State, c: nat, p: nat)
    requires Inv(s) && c < |s.clones| && p < |s.clones[c].plans| && s.clones[c].phase == PullRechecked(p)
    ensures Grounded(s.dag) && Inv(Act(s, Merge(c))) && c < |Act(s, Merge(c)).clones|
    ensures var t := Act(s, Merge(c)); var u := Act(t, ReadBack(c)); var x := s.clones[c];
      && c < |u.clones| && p < |u.clones[c].plans| && p < |t.clones[c].plans|
      && (u.clones[c].plans[p].status == Complete <==> FastForwards(s.dag, x.head, x.plans[p].seen))
      && (t.clones[c].phase == Idle ==> t.clones[c].plans[p].status == u.clones[c].plans[p].status)
  {
    hide Reach, IsAncestor, PlanOk;
    var x := s.clones[c];
    assert CloneOk(s, x) && x.plans[p] in x.plans;
    PullPlanOk(s, x, x.plans[p]);
    SyncStep(s, Merge(c));
    if x.head.Some? {
      OneWay(s.dag, x.head.value, x.plans[p].seen.value);
    }
    var t := Act(s, Merge(c));
    MergeOutcome(s, t, Act(t, ReadBack(c)), c, p, x.head, x.plans[p].seen.value);
  }
}
