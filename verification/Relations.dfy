/**
 Receipts by status alone (internal/agentinterop/relations.go:64-123, refresh.go:21-60, and the status checks
 of apply.go:115-134 and 270-284). What the disk answers is an input here; `Succession` computes it.
 */
module Relations {
  import opened Options
  import opened Transaction

  /** `effectful`: the plan changes something, a file or a stanza. */
  datatype Receipt = Receipt(mode: Mode, status: Status, parent: Option<Id>, effectful: bool)

  type Ledger = map<Id, Receipt>

  const HISTORY: nat := 32

  /** How an application ends when the power does not fail. */
  datatype Ending = Finished | PartWay | Uncertain | Stale

  /** One operation. `owner` is the receipt found to own the destination; `holds` is the receipt check of
      the planner, `content` the recorded-content check of a predecessor. */
  datatype Event =
    | Plans(id: Id, mode: Mode, owner: Option<Id>, effectful: bool)
    | Refreshes(of: Id, id: Id, holds: bool, effectful: bool)
    | Undoes(of: Id, id: Id, holds: bool, effectful: bool)
    | Applies(id: Id, ending: Ending, content: bool)

  /** The nearest receipt up the parent chain that changed something, None past the history limit. */
  function Owner(m: Ledger, id: Id, left: nat): Option<Id>
    requires id in m
    decreases left
  {
    if m[id].effectful || m[id].parent == None then Some(id)
    else if left == 0 || m[id].parent.value !in m then None
    else Owner(m, m[id].parent.value, left - 1)
  }

  predicate MayApply(m: Ledger, id: Id) {
    && id in m && m[id].status == Status.Planned
    && (m[id].parent.Some? ==>
          && m[id].parent.value in m
          && (m[m[id].parent.value].status == Applied || (m[id].mode == Undo && m[m[id].parent.value].status == Partial)))
  }

  predicate MayUndo(m: Ledger, id: Id) {
    id in m && (m[id].status == Applied || m[id].status == Partial)
  }

  /** What `findMCPOwner` may find: an applied receipt that changed something and is not an undo. */
  predicate Owns(m: Ledger, owner: Option<Id>) {
    owner.Some? && owner.value in m && m[owner.value].status == Applied && m[owner.value].mode != Undo && m[owner.value].effectful
  }

  function WithStatus(m: Ledger, id: Id, status: Status): Ledger
    requires id in m
  {
    m[id := m[id].(status := status)]
  }

  /** The predecessor that the undo `id` brings back when its content is there again. */
  function Predecessor(m: Ledger, id: Id): Option<Id>
    requires id in m
  {
    if m[id].mode == Undo && m[id].parent.Some? && m[id].parent.value in m && m[m[id].parent.value].parent.Some?
       && m[m[id].parent.value].parent.value in m && m[m[m[id].parent.value].parent.value].status == Superseded
    then m[m[id].parent.value].parent
    else None
  }

  /** What the application of `id` does to its parent and to its parent's predecessor. */
  function Related(m: Ledger, id: Id, content: bool): Ledger
    requires id in m
  {
    var r := m[id];
    if r.parent == None || r.parent.value !in m || (r.mode != Undo && !r.effectful) then m
    else if r.mode == Undo then
      var undone := WithStatus(m, r.parent.value, Undone);
      if Predecessor(undone, id).Some? && content then WithStatus(undone, Predecessor(undone, id).value, Applied) else undone
    else if r.mode == Mirror || r.mode == Move then WithStatus(m, r.parent.value, Superseded)
    else m
  }

  function Next(m: Ledger, e: Event): Ledger {
    match e
    case Plans(id, mode, owner, effectful) =>
      if id in m || mode == Undo then m
      else m[id := Receipt(mode, Status.Planned, if mode in {Mirror, Move} && Owns(m, owner) then owner else None, effectful)]
    case Refreshes(of, id, holds, effectful) =>
      if id in m || of !in m || m[of].mode != Mirror || m[of].status != Applied || Owner(m, of, HISTORY) == None || !holds then m
      else m[id := Receipt(Mirror, Status.Planned, Owner(m, of, HISTORY), effectful)]
    case Undoes(of, id, holds, effectful) =>
      if id in m || !MayUndo(m, of) || !holds then m else m[id := Receipt(Undo, Status.Planned, Some(of), effectful)]
    case Applies(id, ending, content) =>
      if !MayApply(m, id) || ending == Stale then m
      else
        if ending == Finished then Related(WithStatus(m, id, Applied), id, content)
        else WithStatus(m, id, if ending == PartWay then Partial else InterruptedUnknown)
  }

  function Run(es: seq<Event>): Ledger {
    if es == [] then map[] else Next(Run(es[..|es| - 1]), es[|es| - 1])
  }

  // What every run keeps.

  /** A refresh or a renewed relation descends from a receipt that changed something or has no parent itself. */
  ghost predicate Rooted(m: Ledger) {
    forall id <- m :: RootedAt(m, id)
  }

  /** One receipt's share of `Rooted`. */
  predicate RootedAt(m: Ledger, id: Id)
    requires id in m
  {
    m[id].parent.Some? ==>
      && m[id].parent.value in m && m[id].parent.value != id
      && (m[id].mode != Undo ==>
            m[id].mode in {Mirror, Move} && m[m[id].parent.value].mode != Undo
            && (m[m[id].parent.value].effectful || m[m[id].parent.value].parent == None))
      && m[m[id].parent.value].status != Status.Planned
  }

  lemma RootedNext(m: Ledger, e: Event)
    requires Rooted(m)
    ensures Rooted(Next(m, e))
  {
    forall id | id in Next(m, e)
      ensures RootedAt(Next(m, e), id)
    {
      if id in m {
        assert RootedAt(m, id);
        Kept(m, e, id);
        if m[id].parent.Some? {
          Kept(m, e, m[id].parent.value);
        }
      } else {
        NewIsRooted(m, e, id);
      }
    }
  }

  lemma NewIsRooted(m: Ledger, e: Event, id: Id)
    requires Rooted(m) && id !in m && id in Next(m, e)
    ensures RootedAt(Next(m, e), id)
  {
    if e.Refreshes? {
      assert RootedAt(m, e.of);
      OwnerIsNear(m, e.of);
    }
  }

  /** So the walk to the owner takes at most one step: its limit is never reached. */
  lemma OwnerIsNear(m: Ledger, id: Id)
    requires Rooted(m) && id in m && m[id].mode == Mirror
    ensures Owner(m, id, HISTORY) == if m[id].effectful || m[id].parent == None then Some(id) else m[id].parent
  {
    assert RootedAt(m, id);
  }

  /** A receipt stays in the ledger with its mode, parent and kind, and once undone stays undone. */
  lemma Kept(m: Ledger, e: Event, id: Id)
    requires id in m
    ensures id in Next(m, e) && Next(m, e)[id].mode == m[id].mode && Next(m, e)[id].parent == m[id].parent
    ensures Next(m, e)[id].effectful == m[id].effectful
    ensures m[id].status == Undone ==> Next(m, e)[id].status == Undone
    ensures m[id].status != Status.Planned ==> Next(m, e)[id].status != Status.Planned
    ensures m[id].status == Partial && Next(m, e)[id].status != Partial ==>
              Next(m, e)[id].status in {Undone, Superseded}
  {
  }

  /** Over the rest of any run, too. */
  lemma {:induction false} UndoneForGood(es: seq<Event>, k: nat, id: Id)
    requires k <= |es| && id in Run(es[..k]) && Run(es[..k])[id].status == Undone
    ensures id in Run(es) && Run(es)[id].status == Undone
    decreases |es|
  {
    if k < |es| {
      assert es[..|es| - 1][..k] == es[..k];
      UndoneForGood(es[..|es| - 1], k, id);
      Kept(Run(es[..|es| - 1]), es[|es| - 1], id);
    } else {
      assert es[..k] == es;
    }
  }

  /** `s` is a successor of `p` that took place and was not taken back. */
  predicate Lives(m: Ledger, s: Id, p: Id) {
    s in m && m[s].parent == Some(p) && m[s].mode != Undo && m[s].effectful && (m[s].status == Applied || m[s].status == Superseded)
  }

  /** At most one successor of each receipt lives, and none of a receipt that is itself applied. */
  ghost predicate Single(m: Ledger) {
    && (forall s, p {:trigger Lives(m, s, p)} :: Lives(m, s, p) && p in m ==> m[p].status != Applied)
    && (forall s, s', p {:trigger Lives(m, s, p), Lives(m, s', p)} :: Lives(m, s, p) && Lives(m, s', p) ==> s == s')
  }

  /** The receipt an application brings back while another successor of it lives. */
  ghost predicate Clashes(m: Ledger, e: Event) {
    && e.Applies? && e.ending == Finished && e.content && MayApply(m, e.id)
    && var p := Predecessor(m, e.id);
       p.Some? && exists s :: Lives(m, s, p.value) && Some(s) != m[e.id].parent
  }

  /** What one operation does to the living successors. */
  lemma LivesNext(m: Ledger, e: Event, s: Id, p: Id)
    requires Rooted(m)
    ensures Lives(Next(m, e), s, p) <==>
              || (Lives(m, s, p)
                  && !(e.Applies? && e.ending == Finished && MayApply(m, e.id) && m[e.id].mode == Undo && m[e.id].parent == Some(s)))
              || (e.Applies? && e.ending == Finished && MayApply(m, s) && e.id == s && m[s].mode != Undo
                  && m[s].effectful && m[s].parent == Some(p))
  {
    assert s in m ==> RootedAt(m, s);
    assert e.Applies? && e.id in m ==> RootedAt(m, e.id);
  }

  /** What one operation makes applied. */
  lemma AppliedNext(m: Ledger, e: Event, p: Id)
    requires Rooted(m) && p in Next(m, e)
    ensures Next(m, e)[p].status == Applied <==>
              || (p in m && m[p].status == Applied && !(e.Applies? && e.ending == Finished && MayApply(m, e.id) && m[e.id].parent == Some(p)
                                                       && (m[e.id].mode == Undo || m[e.id].effectful)))
              || (e.Applies? && e.ending == Finished && MayApply(m, p) && e.id == p)
              || (e.Applies? && e.ending == Finished && e.content && MayApply(m, e.id) && Predecessor(m, e.id) == Some(p))
  {
    assert p in m ==> RootedAt(m, p);
    assert e.Applies? && e.id in m ==> RootedAt(m, e.id);
    assert e.Applies? && e.id in m && m[e.id].parent.Some? ==> RootedAt(m, m[e.id].parent.value);
  }

  /** One operation keeps the succession single exactly when it brings back no receipt that still has a
      living successor. */
  lemma SingleNext(m: Ledger, e: Event)
    requires Rooted(m) && Single(m)
    ensures Single(Next(m, e)) <==> !Clashes(m, e)
  {
    if Clashes(m, e) {
      ClashShows(m, e);
    } else {
      SingleKept(m, e);
    }
  }

  lemma ClashShows(m: Ledger, e: Event)
    requires Rooted(m) && Clashes(m, e)
    ensures !Single(Next(m, e))
  {
    var p := Predecessor(m, e.id).value;
    var s :| Lives(m, s, p) && Some(s) != m[e.id].parent;
    LivesNext(m, e, s, p);
    AppliedNext(m, e, p);
    hide Next;
    assert Lives(Next(m, e), s, p);
  }

  lemma SingleKept(m: Ledger, e: Event)
    requires Rooted(m) && Single(m) && !Clashes(m, e)
    ensures Single(Next(m, e))
  {
    var n := Next(m, e);
    hide Next;
    forall s, p {:trigger Lives(n, s, p)} | Lives(n, s, p) && p in n
      ensures n[p].status != Applied
    {
      LivesNext(m, e, s, p);
      AppliedNext(m, e, p);
      assert RootedAt(m, s);
    }
    forall s, s', p {:trigger Lives(n, s, p), Lives(n, s', p)} | Lives(n, s, p) && Lives(n, s', p)
      ensures s == s'
    {
      LivesNext(m, e, s, p);
      LivesNext(m, e, s', p);
      assert RootedAt(m, s) && RootedAt(m, s');
    }
  }

  /** Undoing the living successor itself never clashes. */
  lemma LivingUndoIsSafe(m: Ledger, id: Id, ending: Ending, content: bool)
    requires Single(m) && id in m && m[id].mode == Undo && m[id].parent.Some? && m[id].parent.value in m
    requires m[m[id].parent.value].parent.Some? && Lives(m, m[id].parent.value, m[m[id].parent.value].parent.value)
    ensures !Clashes(m, Applies(id, ending, content))
  {
  }

  lemma {:induction false} SingleRun(es: seq<Event>)
    requires forall k :: 0 <= k < |es| ==> !Clashes(Run(es[..k]), es[k])
    ensures Rooted(Run(es)) && Single(Run(es))
  {
    if es != [] {
      var n := |es| - 1;
      forall k | 0 <= k < n
        ensures !Clashes(Run(es[..n][..k]), es[..n][k])
      {
        assert es[..n][..k] == es[..k];
      }
      SingleRun(es[..n]);
      assert !Clashes(Run(es[..n]), es[n]);
      RootedNext(Run(es[..n]), es[n]);
      SingleNext(Run(es[..n]), es[n]);
    }
  }

  /** Without a clash no receipt ever has two applied successors that changed something. */
  lemma OneAppliedSuccessor(es: seq<Event>, p: Id, s: Id, s': Id)
    requires forall k :: 0 <= k < |es| ==> !Clashes(Run(es[..k]), es[k])
    requires Lives(Run(es), s, p) && Lives(Run(es), s', p)
    ensures s == s' && (p in Run(es) ==> Run(es)[p].status != Applied)
  {
    SingleRun(es);
  }

  /** After a clash one more renewal of the receipt brought back leaves it two living successors: the other one as
      it was and a newer one, applied. */
  lemma ClashGrows(m: Ledger, e: Event, s: Id, t: Id)
    requires Rooted(m) && Clashes(m, e) && t !in m
    requires Lives(m, s, Predecessor(m, e.id).value) && m[e.id].parent != Some(s)
    requires m[Predecessor(m, e.id).value].effectful || m[Predecessor(m, e.id).value].mode == Mirror
    ensures var p := Predecessor(m, e.id).value;
      var renewal := if m[p].effectful then Plans(t, Mirror, Some(p), true) else Refreshes(p, t, true, true);
      var n := Next(Next(Next(m, e), renewal), Applies(t, Finished, false));
      s != t && Lives(n, s, p) && Lives(n, t, p) && n[t].status == Applied && n[s].status == m[s].status
  {
    var p := Predecessor(m, e.id).value;
    assert RootedAt(m, s) && RootedAt(m, e.id) && RootedAt(m, m[e.id].parent.value);
    ClashRevives(m, e, p, s);
    Renewed(Next(m, e), p, s, t);
    hide Next;
  }

  lemma ClashRevives(m: Ledger, e: Event, p: Id, s: Id)
    requires Rooted(m) && Clashes(m, e) && Predecessor(m, e.id) == Some(p) && Lives(m, s, p) && m[e.id].parent != Some(s)
    ensures var n := Next(m, e); n.Keys == m.Keys && n[p] == m[p].(status := Applied) && n[s] == m[s] && s != p
    ensures m[p].mode != Undo && (m[p].effectful || m[p].parent == None)
  {
    assert RootedAt(m, s) && RootedAt(m, e.id) && RootedAt(m, m[e.id].parent.value);
  }

  lemma Renewed(m: Ledger, p: Id, s: Id, t: Id)
    requires p in m && s in m && t !in m && s != p && m[p].status == Applied && m[p].mode != Undo && Lives(m, s, p)
    requires m[p].effectful || (m[p].mode == Mirror && m[p].parent == None)
    ensures var renewal := if m[p].effectful then Plans(t, Mirror, Some(p), true) else Refreshes(p, t, true, true);
      var n := Next(Next(m, renewal), Applies(t, Finished, false));
      Lives(n, s, p) && Lives(n, t, p) && n[t].status == Applied && n[s].status == m[s].status
  {
  }

  /** What one event changes beside the receipt it is about. */
  lemma OnlyRelated(m: Ledger, id: Id, ending: Ending, content: bool, q: Id)
    requires Rooted(m) && MayApply(m, id) && q in m && q != id && m[id].parent != Some(q) && Predecessor(m, id) != Some(q)
    ensures Next(m, Applies(id, ending, content))[q] == m[q]
  {
  }

  /** Two undos of one receipt are never both applied: the first one closes it. */
  lemma OneUndo(es: seq<Event>, i: nat, j: nat)
    requires i < |es| && j < |es| && es[i].Applies? && es[j].Applies? && es[i].ending == es[j].ending == Finished
    requires MayApply(Run(es[..i]), es[i].id) && MayApply(Run(es[..j]), es[j].id)
    requires Run(es[..i])[es[i].id].mode == Run(es[..j])[es[j].id].mode == Undo
    requires Run(es[..i])[es[i].id].parent.Some? && Run(es[..i])[es[i].id].parent == Run(es[..j])[es[j].id].parent
    ensures i == j
  {
    if i < j {
      UndoCloses(es, i, j);
    }
    if j < i {
      UndoCloses(es, j, i);
    }
  }

  lemma UndoCloses(es: seq<Event>, i: nat, j: nat)
    requires i < j <= |es| && es[i].Applies? && es[i].ending == Finished && MayApply(Run(es[..i]), es[i].id)
    requires Run(es[..i])[es[i].id].mode == Undo && Run(es[..i])[es[i].id].parent.Some?
    ensures var x := Run(es[..i])[es[i].id].parent.value;
      x in Run(es[..j]) && Run(es[..j])[x].status == Undone
  {
    var m, x := Run(es[..i]), Run(es[..i])[es[i].id].parent.value;
    RunRooted(es[..i]);
    assert RootedAt(m, es[i].id) && RootedAt(m, x);
    assert es[..i + 1][..i] == es[..i] && es[..i + 1][i] == es[i];
    assert es[..j][..i + 1] == es[..i + 1];
    UndoneForGood(es[..j], i + 1, x);
  }

  lemma {:induction false} RunRooted(es: seq<Event>)
    ensures Rooted(Run(es))
  {
    if es != [] {
      RunRooted(es[..|es| - 1]);
      RootedNext(Run(es[..|es| - 1]), es[|es| - 1]);
    }
  }

  lemma RunMore(es: seq<Event>, e: Event)
    ensures Run(es + [e]) == Next(Run(es), e)
  {
    assert (es + [e])[..|es|] == es;
  }
}
