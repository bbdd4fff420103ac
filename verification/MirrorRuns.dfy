/**
 Runs of refreshes and undos over `Succession` (internal/agentinterop/refresh.go, relations.go:64-123): undoing the
 living refresh always brings its predecessor back; undoing an older one that had nothing to change can bring back
 a receipt that another one has replaced.
 */
module MirrorRuns {
  import opened Options
  import opened FileTree
  import opened Effects
  import opened Transaction
  import opened Execution
  import opened McpValues
  import opened Relations
  import opened Succession
  import U = Undoing
  import M = McpOwnership

  // ---------------------------------------------------------------- configuration mirrors

  /** Putting stanzas back is what an undo of those edits leaves. */
  lemma {:induction false} PutBackUndoes(docs: M.Docs, edits: seq<M.Edit>)
    requires PutBack(docs, edits).Some?
    ensures M.UndoneTo(docs, edits, PutBack(docs, edits).value)
  {
    if edits != [] {
      PutBackUndoes(docs, edits[1..]);
      var e, later, after := edits[0], PutBack(docs, edits[1..]).value, PutBack(docs, edits).value;
      forall l, sl
        ensures M.StanzaAt(after, l, sl) == M.Undone(docs, edits, l, sl)
      {
        assert M.StanzaAt(later, l, sl) == M.Undone(docs, edits[1..], l, sl);
      }
    }
  }

  /** One mirrored stanza: the receipt of request `q` left `c` there, and has not adopted it. */
  predicate Mirrors(b: Body, q: Request, c: M.Stanza) {
    && b.Stanzas? && b.request == q && !q.adopt && |b.edits| == 1 && c != map[]
    && b.edits[0].loc == q.to && b.edits[0].agent == q.toAgent && b.edits[0].name == q.target && b.edits[0].after == Some(c)
  }

  /** A refresh that found nothing to change. */
  predicate Idle(b: Body, q: Request) { b.Stanzas? && b.request == q && b.edits == [] }

  predicate There(docs: M.Docs, q: Request, c: M.Stanza) { M.StanzaAt(docs, q.to, ToSlot(q)) == Some(c) }

  predicate Gives(w: World, q: Request, c: M.Stanza) {
    var source := M.StanzaAt(w.docs, q.from, FromSlot(q));
    source.Some? && w.render(source.value) == Some(c) && c != map[]
  }

  predicate TwoPlaces(q: Request) { (q.from, FromSlot(q)) != (q.to,
      ToSlot(q)) && (q.from != q.to || q.name != q.target) }

  lemma MirrorHolds(docs: M.Docs, b: Body, q: Request, c: M.Stanza)
    requires Mirrors(b, q, c)
    ensures M.Holds(docs, b.edits) <==> There(docs, q, c)
  {
    assert b.edits[0] in b.edits;
  }

  /** What a mirror of `q`, owned by a mirror that left `a`, plans when the source gives `c`. */
  lemma MirrorPlan(w: World, q: Request, o: Id, a: M.Stanza, c: M.Stanza) returns (b: Body)
    requires Known(w, o) && w.ledger[o].mode == Mirror && Mirrors(w.bodies[o], q, a) && There(w.docs, q, a)
    requires Gives(w, q, c) && TwoPlaces(q)
    ensures StanzaPlan(w, q, Mirror, Some(o)) == Some(b)
    ensures if c == a then Idle(b, q) else Mirrors(b, q, c) && b.edits[0].before == Some(a)
    ensures b.Stanzas? && b.seen == w.docs && There(w.docs + b.writes, q, c)
    ensures M.StanzaAt(w.docs + b.writes, q.from, FromSlot(q)) == M.StanzaAt(w.docs, q.from, FromSlot(q))
    ensures c == a ==> w.docs + b.writes == w.docs
  {
    var t := TransferOf(w, q, Mirror, c, Some(o));
    assert w.bodies[o].edits[0] in w.bodies[o].edits;
    assert t.owned && !t.claims && !t.moving;
    assert w.bodies[o].edits[0].after == Some(a) && a != map[];
    var done := w.docs[q.to := M.DocAt(w.docs, q.to)[ToSlot(q) := c]];
    assert M.Planned(w.docs, t).Some? && M.Planned(w.docs, t).value.0 == done;
    if c == a {
      assert M.DocAt(w.docs, q.to)[ToSlot(q) := c] == M.DocAt(w.docs, q.to);
      assert done == w.docs;
    } else {
      assert M.DocAt(done, q.to)[ToSlot(q)] != M.DocAt(w.docs, q.to)[ToSlot(q)];
    }
    b := StanzaPlan(w, q, Mirror, Some(o)).value;
    assert w.docs + b.writes == done;
  }

  /** An applied mirror of `q` that left `a`, with `a` still there. */
  predicate Stands(w: World, o: Id, q: Request, a: M.Stanza) {
    && Known(w, o) && w.ledger[o].mode == Mirror && w.ledger[o].status == Applied && w.ledger[o].effectful
    && Mirrors(w.bodies[o], q, a) && There(w.docs, q, a)
  }

  /** The receipt a refresh of `o` adds. */
  function Successor(o: Id, status: Status, effectful: bool): Receipt { Receipt(Mirror, status, Some(o), effectful) }

  lemma RefreshStep(w: World, q: Request, o: Id, id: Id, a: M.Stanza, c: M.Stanza) returns (b: Body)
    requires Stands(w, o, q, a) && Gives(w, q, c) && TwoPlaces(q) && id !in w.ledger
    ensures Step(w, RefreshStanzas(o, id)) == w.(ledger := w.ledger[id := Successor(o, Status.Planned, c != a)],
              bodies := w.bodies[id := b])
    ensures if c == a then Idle(b, q) else Mirrors(b, q, c) && b.edits[0].before == Some(a)
    ensures b.Stanzas? && b.seen == w.docs && There(w.docs + b.writes, q, c)
    ensures M.StanzaAt(w.docs + b.writes, q.from, FromSlot(q)) == M.StanzaAt(w.docs, q.from, FromSlot(q))
    ensures c == a ==> w.docs + b.writes == w.docs
  {
    b := MirrorPlan(w, q, o, a, c);
    MirrorHolds(w.docs, w.bodies[o], q, a);
    assert Owner(w.ledger, o, HISTORY) == Some(o);
    hide StanzaPlan, There, Gives;
  }

  /** A fresh plan of `o`'s successor is applied. */
  lemma SuccessorApplied(w: World, o: Id, id: Id)
    requires Known(w, o) && Known(w, id) && id != o && w.bodies[id].Stanzas? && w.bodies[id].seen == w.docs
    requires w.ledger[id] == Successor(o, Status.Planned, w.ledger[id].effectful) && w.ledger[o].status == Applied
    ensures var m := w.ledger[id := Successor(o, Applied, w.ledger[id].effectful)];
      Step(w, Apply(id, Finished, 0, {})) ==
      w.(docs := w.docs + w.bodies[id].writes, ledger := if w.ledger[id].effectful then m[o := w.ledger[o].(status := Superseded)] else m)
  {
  }

  /** A refresh of a standing mirror, planned and applied at once: nothing changes, or the stanza does and the mirror is superseded. */
  lemma RefreshNow(w: World, q: Request, o: Id, id: Id, a: M.Stanza, c: M.Stanza) returns (n: World)
    requires Stands(w, o, q, a) && Gives(w, q, c) && TwoPlaces(q) && id !in w.ledger
    ensures n == RunFrom(w, [RefreshStanzas(o, id), Apply(id, Finished, 0, {})])
    ensures id in n.bodies && n == w.(docs := n.docs, bodies := w.bodies[id := n.bodies[id]], ledger := n.ledger)
    ensures n.ledger == if c == a then w.ledger[id := Successor(o, Applied, false)]
                        else w.ledger[id := Successor(o, Applied, true)][o := w.ledger[o].(status := Superseded)]
    ensures if c == a then Idle(n.bodies[id], q) else Mirrors(n.bodies[id], q, c) && n.bodies[id].edits[0].before == Some(a)
    ensures There(n.docs, q, c) && M.StanzaAt(n.docs, q.from, FromSlot(q)) == M.StanzaAt(w.docs, q.from, FromSlot(q))
    ensures c == a ==> n.docs == w.docs
  {
    hide *;
    var b := RefreshStep(w, q, o, id, a, c);
    var v := Step(w, RefreshStanzas(o, id));
    StandsParts(w, o, q, a);
    SuccessorIs(o, Status.Planned, c != a);
    SuccessorApplied(v, o, id);
    n := Step(v, Apply(id, Finished, 0, {}));
    TwoSteps(w, RefreshStanzas(o, id), Apply(id, Finished, 0, {}));
  }

  lemma StandsParts(w: World, o: Id, q: Request, a: M.Stanza)
    requires Stands(w, o, q, a)
    ensures forall b: World,
              id: Id :: b.ledger.Keys == w.ledger.Keys + {id} && b.bodies.Keys == w.bodies.Keys + {id} ==> Known(b, o) && Known(b, id)
    ensures o in w.ledger && o in w.bodies && w.ledger[o].status == Applied
  {
    hide Mirrors, There;
  }

  lemma SuccessorIs(o: Id, status: Status, effectful: bool)
    ensures Successor(o, status, effectful) == Receipt(Mirror, status, Some(o), effectful)
  {
  }

  lemma TwoSteps(w: World, a: Action, b: Action)
    ensures RunFrom(w, [a, b]) == Step(Step(w, a), b)
  {
    hide Step;
    assert [a, b][1..] == [b] && [b][1..] == [];
    assert RunFrom(Step(w, a), [b]) == RunFrom(Step(Step(w, a), b), []);
  }

  /** The undo of a refresh that had nothing to change, applied: the mirror before it is back if its stanza is. */
  lemma UndoIdleNow(w: World, q: Request, x: Id, p: Id, u: Id, a: M.Stanza) returns (n: World)
    requires Known(w, x) && w.ledger[x] == Successor(p, Applied, false) && Idle(w.bodies[x], q)
    requires Known(w, p) && p != x && w.ledger[p].status == Superseded && Mirrors(w.bodies[p], q, a) && There(w.docs, q, a)
    requires u !in w.ledger
    ensures n == RunFrom(w, [UndoStanzas(x, u), Apply(u, Finished, 0, {})])
    ensures u in n.bodies && n == w.(bodies := w.bodies[u := n.bodies[u]], ledger := n.ledger)
    ensures n.ledger == w.ledger[u := Receipt(Undo, Applied, Some(x), false)][x := Successor(p, Undone,
              false)][p := w.ledger[p].(status := Applied)]
  {
    hide *;
    KnownIs(w, x);
    KnownIs(w, p);
    SuccessorIs(p, Applied, false);
    SuccessorIs(p, Undone, false);
    IdleIs(w.bodies[x], q);
    var b := IdleUndoPlan(w.docs, w.bodies[x]);
    UndoPlanned(w, x, u, b);
    var v := Step(w, UndoStanzas(x, u));
    UndoApplied(v, q, x, p, u, a);
    n := Step(v, Apply(u, Finished, 0, {}));
    TwoSteps(w, UndoStanzas(x, u), Apply(u, Finished, 0, {}));
  }

  lemma IdleIs(b: Body, q: Request)
    ensures Idle(b, q) <==> b.Stanzas? && b.request == q && b.edits == []
  {
  }

  lemma IdleUndoPlan(docs: M.Docs, x: Body) returns (b: Body)
    requires x.Stanzas? && x.edits == []
    ensures M.Holds(docs, x.edits) && UndoPlan(docs, x) == Some(b) && b.Stanzas? && b.edits == [] && b.seen == docs
    ensures docs + b.writes == docs
  {
    b := UndoPlan(docs, x).value;
  }

  /** The undo of a living refresh, applied with nothing in between: the mirror it superseded is back, with its stanza. */
  lemma UndoLivingNow(w: World, q: Request, s: Id, p: Id, u: Id, a: M.Stanza, c: M.Stanza) returns (n: World)
    requires Known(w, s) && w.ledger[s] == Successor(p, Applied, true) && Mirrors(w.bodies[s], q, c) && There(w.docs, q, c)
    requires w.bodies[s].edits[0].before == Some(a)
    requires Known(w, p) && p != s && w.ledger[p].status == Superseded && Mirrors(w.bodies[p], q, a)
    requires u !in w.ledger
    ensures n == RunFrom(w, [UndoStanzas(s, u), Apply(u, Finished, 0, {})])
    ensures u in n.bodies && n == w.(docs := n.docs, bodies := w.bodies[u := n.bodies[u]], ledger := n.ledger)
    ensures n.ledger == w.ledger[u := Receipt(Undo, Applied, Some(s), true)][s := Successor(p, Undone,
              true)][p := w.ledger[p].(status := Applied)]
    ensures There(n.docs, q, a)
  {
    hide *;
    KnownIs(w, s);
    KnownIs(w, p);
    SuccessorIs(p, Applied, true);
    SuccessorIs(p, Undone, true);
    MirrorHolds(w.docs, w.bodies[s], q, c);
    MirrorParts(w.bodies[p], q, a);
    MirrorParts(w.bodies[s], q, c);
    var b := LivingUndoPlan(w.docs, w.bodies[s], q, a, c);
    UndoPlanned(w, s, u, b);
    var v := Step(w, UndoStanzas(s, u));
    UndoApplied(v, q, s, p, u, a);
    n := Step(v, Apply(u, Finished, 0, {}));
    TwoSteps(w, UndoStanzas(s, u), Apply(u, Finished, 0, {}));
  }

  lemma MirrorParts(b: Body, q: Request, c: M.Stanza)
    requires Mirrors(b, q, c)
    ensures b.Stanzas? && b.edits != [] && c != map[]
  {
  }

  lemma UndoPlanned(w: World, s: Id, u: Id, b: Body)
    requires s in w.ledger && s in w.bodies && w.bodies[s].Stanzas? && w.ledger[s].status == Applied && u !in w.ledger
    requires M.Holds(w.docs, w.bodies[s].edits) && UndoPlan(w.docs, w.bodies[s]) == Some(b) && b.Stanzas?
    ensures Step(w, UndoStanzas(s, u)) ==
            w.(ledger := w.ledger[u := Receipt(Undo, Status.Planned, Some(s), b.edits != [])], bodies := w.bodies[u := b])
  {
    hide UndoPlan, M.Holds;
  }

  lemma UndoApplied(v: World, q: Request, s: Id, p: Id, u: Id, a: M.Stanza)
    requires u in v.ledger && u in v.bodies && s in v.ledger && p in v.ledger && p in v.bodies && u != s && u != p && s != p
    requires v.ledger[u] == Receipt(Undo, Status.Planned, Some(s), v.ledger[u].effectful)
    requires v.ledger[s].status == Applied && v.ledger[s].parent == Some(p)
    requires v.ledger[p].status == Superseded && Mirrors(v.bodies[p], q, a)
    requires v.bodies[u].Stanzas? && v.bodies[u].seen == v.docs && There(v.docs + v.bodies[u].writes, q, a)
    ensures Step(v, Apply(u, Finished, 0, {})) ==
            v.(docs := v.docs + v.bodies[u].writes,
               ledger := v.ledger[u := v.ledger[u].(status := Applied)][s := v.ledger[s].(status := Undone)]
                           [p := v.ledger[p].(status := Applied)])
  {
    hide *;
    MayApplyIs(v.ledger, u, s);
    CarriedStanzas(v, u);
    ApplyIs(v, u, Finished, 0, {});
    var d := v.(docs := v.docs + v.bodies[u].writes);
    var e := d.(ledger := d.ledger[u := d.ledger[u].(status := Applied)]);
    MirrorParts(v.bodies[p], q, a);
    MirrorBackThere(e.disk.tree, e.docs, v.bodies[p], q, a);
    SettledUndo(e, u, s, p, v.ledger[u].effectful);
    RerecordedStanzas(e.disk.tree, v.bodies[p]);
    assert e.bodies[p := e.bodies[p]] == e.bodies;
  }

  lemma MayApplyIs(m: Ledger, id: Id, parent: Id)
    requires id in m && parent in m && m[id].status == Status.Planned && m[id].parent == Some(parent) && m[parent].status == Applied
    ensures MayApply(m, id)
  {
  }

  lemma CarriedStanzas(w: World, id: Id)
    requires id in w.bodies && w.bodies[id].Stanzas? && w.bodies[id].seen == w.docs
    ensures Carried(w, id, Finished, 0, {}) == Some(w.(docs := w.docs + w.bodies[id].writes))
  {
  }

  lemma MirrorBackThere(t: Tree, docs: M.Docs, b: Body, q: Request, c: M.Stanza)
    requires Mirrors(b, q, c) && There(docs, q, c)
    ensures ContentBack(t, docs, b)
  {
    MirrorHolds(docs, b, q, c);
    hide M.Holds, There;
  }

  lemma RerecordedStanzas(t: Tree, b: Body)
    requires b.Stanzas?
    ensures Rerecorded(t, b) == b
  {
  }

  lemma LivingUndoPlan(docs: M.Docs, s: Body, q: Request, a: M.Stanza, c: M.Stanza) returns (b: Body)
    requires Mirrors(s, q, c) && There(docs, q, c) && s.edits[0].before == Some(a) && a != map[]
    ensures UndoPlan(docs, s) == Some(b) && b.Stanzas? && b.edits != [] && b.seen == docs && There(docs + b.writes, q, a)
  {
    var edits := s.edits;
    assert edits[1..] == [] && PutBack(docs, edits[1..]) == Some(docs);
    var after := docs[q.to := M.DocAt(docs, q.to)[ToSlot(q) := a]];
    assert PutBack(docs, edits) == Some(after);
    assert M.Reversed(edits) == [M.Swapped(edits[0])] by { assert M.Reversed(edits[1..]) == []; }
    b := UndoPlan(docs, s).value;
    assert edits[0] in edits;
    assert docs + b.writes == after;
  }

  /** A refresh that changed the stanza, undone at once: the mirror it superseded stands again. */
  lemma RefreshUndone(w: World, q: Request, o: Id, id: Id, u: Id, a: M.Stanza, c: M.Stanza) returns (n: World)
    requires Stands(w, o, q, a) && Gives(w, q, c) && TwoPlaces(q) && id !in w.ledger && u !in w.ledger && u != id && c != a
    ensures n == RunFrom(w, [RefreshStanzas(o, id), Apply(id, Finished, 0, {})] + [UndoStanzas(id, u), Apply(u, Finished, 0, {})])
    ensures Stands(n, o, q, a) && id in n.ledger && n.ledger[id].status == Undone
  {
    hide *;
    StandsAre(w, o, q, a);
    KnownIs(w, o);
    var v := RefreshNow(w, q, o, id, a, c);
    SuccessorIs(o, Applied, true);
    SuccessorIs(o, Undone, true);
    KnownIs(v, o);
    KnownIs(v, id);
    n := UndoLivingNow(v, q, id, o, u, a, c);
    RunJoin(w, [RefreshStanzas(o, id), Apply(id, Finished, 0, {})], [UndoStanzas(id, u), Apply(u, Finished, 0, {})]);
    StandsAre(n, o, q, a);
    KnownIs(n, o);
  }

  lemma KnownIs(w: World, id: Id)
    ensures Known(w, id) <==> id in w.ledger && id in w.bodies
  {
  }

  lemma StandsAre(w: World, o: Id, q: Request, a: M.Stanza)
    ensures Stands(w, o, q, a) <==>
      && Known(w, o) && w.ledger[o].mode == Mirror && w.ledger[o].status == Applied && w.ledger[o].effectful
      && Mirrors(w.bodies[o], q, a) && There(w.docs, q, a)
  {
    hide Mirrors, There, Known;
  }

  /** Somebody edits the source stanza, and nothing else. */
  function SourceEdited(w: World, q: Request, source: M.Stanza): M.Docs {
    w.docs[q.from := M.DocAt(w.docs, q.from)[FromSlot(q) := source]]
  }

  lemma EditSource(w: World, q: Request, source: M.Stanza, c: M.Stanza) returns (n: World)
    requires Closed(w.disk.tree) && TwoPlaces(q) && w.render(source) == Some(c) && c != map[]
    ensures n == RunFrom(w, [Outside(w.disk, SourceEdited(w, q, source))])
    ensures n == w.(docs := n.docs) && Gives(n, q, c) && Gives(n.(docs := n.docs), q, c)
    ensures forall d: M.Stanza :: There(n.docs, q, d) <==> There(w.docs, q, d)
  {
    n := w.(docs := SourceEdited(w, q, source));
    assert [Outside(w.disk, SourceEdited(w, q, source))][1..] == [];
    assert RunFrom(n, []) == n;
  }

  /** The actions of the run below: edits of the source, refreshes, undos and applications. */
  predicate Ordinary(run: seq<Action>) {
    forall a <- run :: a.Outside? || a.RefreshStanzas? || a.UndoStanzas? || a.Apply?
  }

  /** A refresh after an edit of the source. */
  lemma EditRefresh(w: World, q: Request, o: Id, id: Id, a: M.Stanza, source: M.Stanza, c: M.Stanza)
    returns (run: seq<Action>, n: World)
    requires Closed(w.disk.tree) && Stands(w, o, q, a) && TwoPlaces(q) && id !in w.ledger && w.render(source) == Some(c) && c != map[]
    ensures n == RunFrom(w, run) && Ordinary(run)
    ensures id in n.bodies && n == w.(docs := n.docs, bodies := w.bodies[id := n.bodies[id]], ledger := n.ledger)
    ensures n.ledger == if c == a then w.ledger[id := Successor(o, Applied, false)]
                        else w.ledger[id := Successor(o, Applied, true)][o := w.ledger[o].(status := Superseded)]
    ensures if c == a then Idle(n.bodies[id], q) else Mirrors(n.bodies[id], q, c)
    ensures There(n.docs, q, c)
  {
    hide *;
    var first := [Outside(w.disk, SourceEdited(w, q, source))];
    var v := EditSource(w, q, source, c);
    StandsAre(w, o, q, a);
    StandsAre(v, o, q, a);
    KnownIs(w, o);
    KnownIs(v, o);
    var second := [RefreshStanzas(o, id), Apply(id, Finished, 0, {})];
    n := RefreshNow(v, q, o, id, a, c);
    run := first + second;
    RunJoin(w, first, second);
    IsOrdinary(run);
  }

  lemma IsOrdinary(run: seq<Action>)
    requires forall k :: 0 <= k < |run| ==>
              run[k].Outside? || run[k].RefreshStanzas? || run[k].UndoStanzas? || run[k].Apply?
    ensures Ordinary(run)
  {
  }

  lemma OrdinaryJoin(a: seq<Action>, b: seq<Action>)
    requires Ordinary(a) && Ordinary(b)
    ensures Ordinary(a + b)
  {
  }

  predicate Distinct(ids: seq<Id>) { forall i, j :: 0 <= i < j < |ids| ==> ids[i] != ids[j] }

  /** What the run below starts from, and meets again. */
  ghost predicate Ready(w: World, q: Request, p: Id, c: M.Stanza) {
    Closed(w.disk.tree) && Stands(w, p, q, c)
  }

  /** A superseded mirror with an applied refresh of it that had nothing to change. */
  ghost predicate Waits(w: World, q: Request, p: Id, x: Id, c: M.Stanza) {
    && Known(w, p) && Known(w, x) && p != x && Mirrors(w.bodies[p], q, c) && Idle(w.bodies[x], q)
    && w.ledger[p].mode == Mirror && w.ledger[p].effectful && w.ledger[p].status == Superseded
          && w.ledger[x] == Successor(p, Applied, false)
  }

  /** A source that still gives `c` and then one that gives `d`, with a refresh after each: the second supersedes `p`. */
  lemma IdleThenChanged(w: World, q: Request, p: Id, x: Id, s: Id, c: M.Stanza, same: M.Stanza, d: M.Stanza,
      other: M.Stanza)
    returns (run: seq<Action>, n: World)
    requires Ready(w, q, p, c) && TwoPlaces(q) && x !in w.ledger && s !in w.ledger && x != s
    requires w.render(same) == Some(c) && w.render(other) == Some(d) && c != d && c != map[] && d != map[]
    ensures n == RunFrom(w, run) && Ordinary(run)
    ensures Ready(n, q, s, d) && Waits(n, q, p, x, c) && n.render == w.render
    ensures n.ledger.Keys == w.ledger.Keys + {x, s} && n.ledger[s].parent == Some(p)
    ensures p in w.ledger && n.ledger[p] == w.ledger[p].(status := Superseded)
    ensures forall i :: i in w.ledger && i != p ==> n.ledger[i] == w.ledger[i]
    ensures n.bodies.Keys == w.bodies.Keys + {x, s} && forall i :: i in w.bodies && i !in {x, s} ==>
              n.bodies[i] == w.bodies[i]
  {
    hide *;
    ReadyIs(w, q, p, c);
    StandsAre(w, p, q, c);
    KnownIs(w, p);
    SuccessorIs(p, Applied, false);
    SuccessorIs(p, Applied, true);
    var first, v := EditRefresh(w, q, p, x, c, same, c);
    KnownIs(v, p);
    StandsAre(v, p, q, c);
    var second, u := EditRefresh(v, q, p, s, c, other, d);
    n := u;
    run := first + second;
    RunJoin(w, first, second);
    OrdinaryJoin(first, second);
    KnownIs(n, s);
    KnownIs(n, p);
    KnownIs(n, x);
    StandsAre(n, s, q, d);
    ReadyIs(n, q, s, d);
    WaitsIs(n, q, p, x, c);
  }

  lemma ReadyIs(w: World, q: Request, p: Id, c: M.Stanza)
    ensures Ready(w, q, p, c) <==> Closed(w.disk.tree) && Stands(w, p, q, c)
  {
    hide Stands;
  }

  lemma WaitsIs(w: World, q: Request, p: Id, x: Id, c: M.Stanza)
    ensures Waits(w, q, p, x, c) <==>
      && Known(w, p) && Known(w, x) && p != x && Mirrors(w.bodies[p], q, c) && Idle(w.bodies[x], q)
      && w.ledger[p].mode == Mirror && w.ledger[p].effectful && w.ledger[p].status == Superseded
            && w.ledger[x] == Successor(p, Applied, false)
  {
    hide Mirrors, Idle, Known;
  }

  /** Undoing the refresh that changed nothing brings its mirror back whenever the stanza is the old one. */
  lemma IdleUndone(w: World, q: Request, p: Id, x: Id, u: Id, c: M.Stanza) returns (run: seq<Action>, n: World)
    requires Closed(w.disk.tree) && Waits(w, q, p, x, c) && There(w.docs, q, c) && u !in w.ledger
    ensures n == RunFrom(w, run) && Ordinary(run)
    ensures Ready(n, q, p, c) && n.render == w.render && n.docs == w.docs
    ensures n.ledger.Keys == w.ledger.Keys + {u}
    ensures n.ledger[p] == w.ledger[p].(status := Applied)
    ensures forall i :: i in w.ledger && i != p && i != x ==> n.ledger[i] == w.ledger[i]
    ensures n.bodies.Keys == w.bodies.Keys + {u} && forall i :: i in w.bodies && i != u ==> n.bodies[i] == w.bodies[i]
  {
    hide *;
    WaitsIs(w, q, p, x, c);
    KnownIs(w, p);
    KnownIs(w, x);
    SuccessorIs(p, Applied, false);
    SuccessorIs(p, Undone, false);
    run := [UndoStanzas(x, u), Apply(u, Finished, 0, {})];
    n := UndoIdleNow(w, q, x, p, u, c);
    IsOrdinary(run);
    KnownIs(n, p);
    StandsAre(n, p, q, c);
    ReadyIs(n, q, p, c);
  }

  lemma WaitsKept(w: World, n: World, q: Request, p: Id, x: Id, c: M.Stanza)
    requires Waits(w, q, p, x, c) && p in n.ledger && x in n.ledger && p in n.bodies && x in n.bodies
    requires p in w.ledger && x in w.ledger && p in w.bodies && x in w.bodies
    requires n.ledger[p] == w.ledger[p] && n.ledger[x] == w.ledger[x] && n.bodies[p] == w.bodies[p] && n.bodies[x] == w.bodies[x]
    ensures Waits(n, q, p, x, c)
  {
    hide *;
    WaitsIs(w, q, p, x, c);
    WaitsIs(n, q, p, x, c);
    KnownIs(n, p);
    KnownIs(n, x);
  }

  /** The applied mirrors `s` and `t` both took the place of `p`, and neither was taken back. */
  predicate BothStand(m: Ledger, p: Id, s: Id, t: Id) {
    s != t && Lives(m, s, p) && Lives(m, t, p) && m[s].status == Applied && m[t].status == Applied
  }

  /**
   From every world in which a mirror stands, whatever happened before, a run in which only the source changes
   (from `a`, to `b`, to `a`, to `b`) gives that mirror two applied successors. Two refreshes of the run found
   nothing to change; undoing them brings back a mirror that has been replaced since.
   */
  lemma TwoSuccessors(w: World, q: Request, p: Id, a: M.Stanza, forA: M.Stanza, b: M.Stanza, forB: M.Stanza,
      ids: seq<Id>)
    returns (run: seq<Action>)
    requires Ready(w, q, p, a) && TwoPlaces(q) && |ids| == 7 && Distinct(ids) && forall i <- ids :: i !in w.ledger
    requires w.render(forA) == Some(a) && w.render(forB) == Some(b) && a != b && a != map[] && b != map[]
    ensures Ordinary(run) && BothStand(RunFrom(w, run).ledger, p, ids[2], ids[5])
  {
    hide *;
    AllFresh(w, ids);
    ReadyIs(w, q, p, a);
    StandsAre(w, p, q, a);
    KnownIs(w, p);
    var x, y, s, r, t := ids[0], ids[1], ids[2], ids[3], ids[5];
    var r1, w1 := IdleThenChanged(w, q, p, x, s, a, forA, b, forB);
    WaitsIs(w1, q, p, x, a);
    KnownIs(w1, p);
    KnownIs(w1, x);
    var r2, w2 := IdleThenChanged(w1, q, s, y, r, b, forB, a, forA);
    WaitsKept(w1, w2, q, p, x, a);
    RunJoin(w, r1, r2);
    OrdinaryJoin(r1, r2);
    var r3 := LatterHalf(w2, q, p, x, s, y, r, t, ids[4], ids[6], a, b, forB);
    run := r1 + r2 + r3;
    RunJoin(w, r1 + r2, r3);
    OrdinaryJoin(r1 + r2, r3);
  }

  lemma AllFresh(w: World, ids: seq<Id>)
    requires |ids| == 7 && Distinct(ids) && forall i <- ids :: i !in w.ledger
    ensures forall i, j :: 0 <= i < j < 7 ==> ids[i] != ids[j]
    ensures forall i :: 0 <= i < 7 ==> ids[i] !in w.ledger
  {
  }

  lemma BothStandIs(m: Ledger, p: Id, s: Id, t: Id)
    requires s in m && t in m && s != t && m[s].parent == m[t].parent == Some(p) && m[s].mode == m[t].mode == Mirror
    requires m[s].effectful && m[t].effectful && m[s].status == m[t].status == Applied
    ensures BothStand(m, p, s, t)
  {
  }

  /** Both waiting mirrors are brought back, the first of them being replaced once more in between. */
  lemma LatterHalf(w: World, q: Request, p: Id, x: Id, s: Id, y: Id, r: Id, t: Id, u: Id, v: Id, a: M.Stanza,
      b: M.Stanza, forB: M.Stanza)
    returns (run: seq<Action>)
    requires Ready(w, q, r, a) && Waits(w, q, p, x, a) && Waits(w, q, s, y, b) && TwoPlaces(q)
    requires w.render(forB) == Some(b) && a != b && b != map[] && s in w.ledger && w.ledger[s].parent == Some(p)
    requires s != p && s != x && y != p && y != x && t != u && t != v && u != v && u !in w.ledger && t !in w.ledger && v !in w.ledger
    ensures Ordinary(run) && BothStand(RunFrom(w, run).ledger, p, s, t)
  {
    hide *;
    ReadyIs(w, q, r, a);
    StandsAre(w, r, q, a);
    WaitsIs(w, q, p, x, a);
    WaitsIs(w, q, s, y, b);
    KnownIs(w, p);
    KnownIs(w, x);
    KnownIs(w, s);
    KnownIs(w, y);
    var r1, w1 := IdleUndone(w, q, p, x, u, a);
    WaitsKept(w, w1, q, s, y, b);
    ReadyIs(w1, q, p, a);
    var r2, w2 := EditRefresh(w1, q, p, t, a, forB, b);
    WaitsKept(w1, w2, q, s, y, b);
    var r3, w3 := IdleUndone(w2, q, s, y, v, b);
    SuccessorIs(p, Applied, true);
    BothStandIs(w3.ledger, p, s, t);
    run := r1 + r2 + r3;
    RunJoin(w, r1, r2);
    RunJoin(w, r1 + r2, r3);
    OrdinaryJoin(r1, r2);
    OrdinaryJoin(r1 + r2, r3);
  }

  /** Mirroring a stanza to a name nobody uses, with no receipt so far: the mirror stands. */
  lemma FirstMirror(w: World, q: Request, p: Id, c: M.Stanza) returns (n: World)
    requires w.ledger == map[] && Closed(w.disk.tree) && Gives(w, q, c) && TwoPlaces(q) && !q.adopt
    requires M.StanzaAt(w.docs, q.to, ToSlot(q)) == None
    ensures n == RunFrom(w, [PlanStanzas(p, Mirror, q, None), Apply(p, Finished, 0, {})])
    ensures Ready(n, q, p, c) && n.ledger.Keys == {p} && n.render == w.render
  {
    hide *;
    var b := FirstPlan(w, q, c);
    var v := w.(ledger := w.ledger[p := Receipt(Mirror, Status.Planned, None, true)], bodies := w.bodies[p := b]);
    FirstPlanned(w, q, p, b);
    n := FirstApplied(v, p);
    TwoSteps(w, PlanStanzas(p, Mirror, q, None), Apply(p, Finished, 0, {}));
    KnownIs(n, p);
    StandsAre(n, p, q, c);
    ReadyIs(n, q, p, c);
  }

  lemma FirstPlan(w: World, q: Request, c: M.Stanza) returns (b: Body)
    requires Gives(w, q, c) && TwoPlaces(q) && !q.adopt && M.StanzaAt(w.docs, q.to, ToSlot(q)) == None
    ensures StanzaPlan(w, q, Mirror, None) == Some(b) && Mirrors(b, q, c)
    ensures b.Stanzas? && b.seen == w.docs && b.edits != [] && There(w.docs + b.writes, q, c)
  {
    var t := TransferOf(w, q, Mirror, c, None);
    assert !t.owned && !t.claims && !t.moving;
    var done := w.docs[q.to := M.DocAt(w.docs, q.to)[ToSlot(q) := c]];
    assert M.Planned(w.docs, t).Some? && M.Planned(w.docs, t).value.0 == done;
    b := StanzaPlan(w, q, Mirror, None).value;
    assert w.docs + b.writes == done;
  }

  lemma FirstPlanned(w: World, q: Request, p: Id, b: Body)
    requires w.ledger == map[] && StanzaPlan(w, q, Mirror, None) == Some(b) && b.Stanzas? && b.edits != []
    ensures Step(w, PlanStanzas(p, Mirror, q, None)) ==
            w.(ledger := w.ledger[p := Receipt(Mirror, Status.Planned, None, true)], bodies := w.bodies[p := b])
  {
    hide StanzaPlan;
    assert OwnersOf(w, q) == {};
  }

  lemma FirstApplied(v: World, p: Id) returns (n: World)
    requires p in v.ledger && p in v.bodies && v.ledger[p] == Receipt(Mirror, Status.Planned, None, true)
    requires v.bodies[p].Stanzas? && v.bodies[p].seen == v.docs
    ensures n == Step(v, Apply(p, Finished, 0, {}))
    ensures n == v.(docs := v.docs + v.bodies[p].writes, ledger := v.ledger[p := Receipt(Mirror, Applied, None, true)])
  {
    n := Step(v, Apply(p, Finished, 0, {}));
  }

  lemma GivenBy(w: World, q: Request, c: M.Stanza) returns (source: M.Stanza)
    requires Gives(w, q, c)
    ensures w.render(source) == Some(c) && c != map[]
  {
    source := M.StanzaAt(w.docs, q.from, FromSlot(q)).value;
  }

  /** The whole failing run, from the first plan on. */
  lemma TwoFromNothing(w: World, q: Request, p: Id, a: M.Stanza, b: M.Stanza, forB: M.Stanza, ids: seq<Id>)
    returns (run: seq<Action>)
    requires w.ledger == map[] && Closed(w.disk.tree) && Gives(w, q, a) && TwoPlaces(q) && !q.adopt
    requires M.StanzaAt(w.docs, q.to, ToSlot(q)) == None && |ids| == 7 && Distinct(ids) && p !in ids
    requires w.render(forB) == Some(b) && a != b && b != map[]
    ensures |run| >= 2 && run[..2] == [PlanStanzas(p, Mirror, q, None), Apply(p, Finished, 0, {})] && Ordinary(run[2..])
    ensures BothStand(RunFrom(w, run).ledger, p, ids[2], ids[5])
  {
    hide *;
    var forA := GivenBy(w, q, a);
    var first := [PlanStanzas(p, Mirror, q, None), Apply(p, Finished, 0, {})];
    var v := FirstMirror(w, q, p, a);
    var rest := TwoSuccessors(v, q, p, a, forA, b, forB, ids);
    run := first + rest;
    RunJoin(w, first, rest);
    assert run[2..] == rest && run[..2] == first;
  }

  // ---------------------------------------------------------------- file mirrors

  lemma {:induction false} WalkSees(t: Tree, u: Tree, l: Location)
    requires ViewOf(t) == ViewOf(u)
    ensures match Walk(t, l)
      case Found(n) => Walk(u, l).Found? && Erase(Walk(u, l).node) == Erase(n)
      case other => Walk(u, l) == other
    decreases |l.path|
  {
    assert l in t <==> l in ViewOf(t);
    assert l in u <==> l in ViewOf(u);
    assert l in t ==> Erase(t[l]) == Erase(u[l]) by {
      assert l in t ==> ViewOf(t)[l] == Erase(t[l]);
      assert l in u ==> ViewOf(u)[l] == Erase(u[l]);
    }
    if l.path != [] {
      WalkSees(t, u, Parent(l));
    }
  }

  lemma SameNames(t: Tree, u: Tree, l: Location)
    requires ViewOf(t) == ViewOf(u)
    ensures Names(t, l) == Names(u, l) && (l in t <==> l in u) && (l in t ==> Erase(t[l]) == Erase(u[l]))
  {
    assert forall k :: k in t <==> k in ViewOf(t);
    assert forall k :: k in u <==> k in ViewOf(u);
    assert l in t ==> ViewOf(t)[l] == Erase(t[l]);
    assert l in u ==> ViewOf(u)[l] == Erase(u[l]);
  }

  /** What a snapshot tells of the content depends on nothing but the contents of the tree. */
  lemma SnapshotSees(t: Tree, u: Tree, l: Location)
    requires ViewOf(t) == ViewOf(u)
    ensures Snapshot(t, l).Some? <==> Snapshot(u, l).Some?
    ensures Snapshot(t, l).Some? ==> SameContent(Snapshot(u, l).value, Snapshot(t, l).value)
  {
    WalkSees(t, u, l);
    SameNames(t, u, l);
    hide ViewOf, Names;
  }

  /** A receipt that holds has its content back on every tree with the same contents and the same roots. */
  lemma BackOnSameContents(t: Tree, u: Tree, docs: M.Docs, later: M.Docs, b: Body)
    requires b.Files? && Holds(t, docs, b) && ViewOf(t) == ViewOf(u) && RootsHold(u, b.roots)
    ensures ContentBack(u, later, b)
  {
    forall i | 0 <= i < b.completed
      ensures SameThere(u, b.effects[i])
    {
      SnapshotSees(t, u, b.effects[i].loc);
    }
    hide Snapshot, RootsHold, ViewOf;
  }

  /** Roots held before a good plan are held after any prefix of it. */
  lemma RootsStay(d: Disk, es: seq<Effect>, k: nat, roots: map<string, nat>)
    requires Closed(d.tree) && PlanOk(d.tree, es) && k <= |es| && RootsHold(d.tree, roots)
    ensures RootsHold(RunTo(d, es, k).tree, roots)
  {
    forall p | p in roots
      ensures var l, t := Location(p, []), RunTo(d, es, k).tree; l in t && t[l].Dir? && t[l].id == roots[p]
    {
      forall j | 0 <= j < k
        ensures es[j].loc != Location(p, [])
      {
        assert EffectOk(d.tree, es[j]);
      }
      KeepsNode(d, es, 0, k, Location(p, []));
    }
  }

  lemma DrawnCarries(d: Disk, es: seq<Effect>)
    requires Closed(d.tree) && PlanOk(d.tree, es) && Fits(d, es)
    ensures Carries(d, es, |es|)
  {
    hide *;
    forall j | 0 <= j < |es|
      ensures PublishEffect(RunTo(d, es, j), es[j]).Some? && FitsAt(d, es, j)
    {
      PrefixState(d, es, j);
      StepRuns(d, es, j);
      FitsThere(d, es, j);
    }
    CarriesIs(d, es, |es|);
  }

  lemma FitsThere(d: Disk, es: seq<Effect>, j: nat)
    requires Fits(d, es) && j < |es|
    ensures FitsAt(d, es, j)
    ensures forall i :: 0 <= i <= j ==> Roomy(RunTo(d, es, j + 1).tree, es[i].loc)
  {
    hide RunTo, Roomy;
  }

  lemma CarriesIs(d: Disk, es: seq<Effect>, k: nat)
    requires k <= |es|
    ensures Carries(d, es, k) <==>
              forall j :: 0 <= j < k ==> PublishEffect(RunTo(d, es, j), es[j]).Some? && FitsAt(d, es, j)
  {
    hide PublishEffect, RunTo, FitsAt;
  }

  lemma RereadHolds(t: Tree, docs: M.Docs, b: Body, n: nat)
    requires b.Files? && n == |b.effects| && RootsHold(t, b.roots)
    requires forall j :: 0 <= j < n ==> Snapshot(t, b.effects[j].loc).Some?
    ensures Holds(t, docs, Reread(t, b, n))
  {
    hide Snapshot, RootsHold;
  }

  lemma DrawnParts(t: Tree, b: Body)
    requires Drawn(t, b)
    ensures b.Files? && b.completed == 0 && Closed(t) && PlanOk(t, b.effects) && RootsHold(t, b.roots)
    ensures forall i :: 0 <= i < |b.effects| ==> EffectOk(t, b.effects[i])
    ensures forall k :: 0 <= k < |b.guards| ==> Snapshot(t, b.guards[k].loc) == Some(b.guards[k].image)
    ensures Built(t, Written(b)) && Built(t, Written(b.(completed := |b.effects|)))
  {
    hide Snapshot, EffectOk, RootsHold, Closed;
  }

  /** A plan as drawn can be carried to its end when the listing limit allows, and then holds. */
  lemma DrawnRuns(d: Disk, docs: M.Docs, b: Body)
    requires Drawn(d.tree, b) && Fits(d, b.effects)
    ensures b.Files? && Carries(d, b.effects, |b.effects|)
    ensures var t := RunTo(d, b.effects, |b.effects|).tree; Closed(t) && Holds(t, docs, Reread(t, b, |b.effects|))
  {
    hide *;
    DrawnParts(d.tree, b);
    var es, n := b.effects, |b.effects|;
    var t := RunTo(d, es, n).tree;
    DrawnCarries(d, es);
    PrefixState(d, es, n);
    RootsStay(d, es, n, b.roots);
    AllReadable(d, es, n, t);
    if n > 0 {
      FitsThere(d, es, n - 1);
    }
    RereadHolds(t, docs, b, n);
  }

  /** The reverse plan of a drawn plan leads back to the contents it was drawn on. */
  lemma DrawnBackRestores(d: Disk, b: Body, done: Body, back: Body)
    requires Drawn(d.tree, b) && done == Reread(RunTo(d, b.effects, |b.effects|).tree, b, |b.effects|)
    requires DrawnBack(RunTo(d, b.effects, |b.effects|).tree, done, back)
    ensures var now := RunTo(d, b.effects, |b.effects|); ViewOf(RunTo(now, back.effects, |back.effects|).tree) == ViewOf(d.tree)
  {
    var n, now := |b.effects|, RunTo(d, b.effects, |b.effects|);
    PrefixState(d, b.effects, n);
    BackTakes(d, b, done, back);
    U.RoundTrip(d, Written(b.(completed := n)), now, Written(back), n);
  }

  lemma BackTakes(d: Disk, b: Body, done: Body, back: Body)
    requires Drawn(d.tree, b) && done == Reread(RunTo(d, b.effects, |b.effects|).tree, b, |b.effects|)
    requires DrawnBack(RunTo(d, b.effects, |b.effects|).tree, done, back)
    ensures U.TakesBack(ViewOf(d.tree), b.effects, |b.effects|, 0, back.effects)
  {
    hide *;
    DrawnParts(d.tree, b);
    var t := RunTo(d, b.effects, |b.effects|).tree;
    DrawnBackIs(t, b, back);
    forall j | 0 <= j < |b.effects|
      ensures back.effects[j].loc == b.effects[|b.effects| - 1 - j].loc
      ensures Goal(back.effects[j]) == At(ViewOf(d.tree), b.effects[|b.effects| - 1 - j].loc)
    {
      U.BeforeIsDraft(d.tree, b.effects[|b.effects| - 1 - j]);
      RestoredWants(b.effects[|b.effects| - 1 - j].before);
    }
    TakesBackIs(ViewOf(d.tree), b.effects, back.effects);
  }

  lemma DrawnBackIs(t: Tree, b: Body, back: Body)
    requires b.Files? && DrawnBack(t, Reread(t, b, |b.effects|), back)
    ensures Drawn(t, back) && back.Files? && |back.effects| == |b.effects|
    ensures forall j :: 0 <= j < |b.effects| ==>
              back.effects[j].loc == b.effects[|b.effects| - 1 - j].loc
              && Goal(back.effects[j]) == Wanted(b.effects[|b.effects| - 1 - j].before, Payload(b.effects[|b.effects| - 1 - j].before))
  {
    hide Snapshot, Goal, Wanted, Payload, Built;
    var done := Reread(t, b, |b.effects|);
    assert forall j :: 0 <= j < |b.effects| ==> SameButPost(done.effects[j], b.effects[j]);
  }

  lemma RestoredWants(before: Image)
    ensures Wanted(U.Restored(before), Payload(before)) == Wanted(before, Payload(before))
  {
  }

  lemma TakesBackIs(v: View, es: seq<Effect>, us: seq<Effect>)
    requires |us| == |es|
    requires forall j :: 0 <= j < |es| ==>
              us[j].loc == es[|es| - 1 - j].loc && Goal(us[j]) == At(v, es[|es| - 1 - j].loc)
    ensures U.TakesBack(v, es, |es|, 0, us)
  {
    hide Goal, At;
  }

  lemma DrawnIsFresh(w: World, b: Body)
    requires Drawn(w.disk.tree, b)
    ensures Fresh(w, b)
  {
    DrawnParts(w.disk.tree, b);
    hide Drawn, RootsHold, Snapshot;
  }

  lemma CarriedFiles(w: World, id: Id)
    requires id in w.bodies && w.bodies[id].Files? && Fresh(w, w.bodies[id])
    requires Carries(w.disk, w.bodies[id].effects, |w.bodies[id].effects|)
    ensures var b := w.bodies[id];
      var disk := RunTo(w.disk, b.effects, |b.effects|);
      Carried(w, id, Finished, 0, {}) == Some(w.(disk := disk, bodies := w.bodies[id := Reread(disk.tree, b, |b.effects|)]))
  {
    hide Fresh, Carries, RunTo, Reread;
  }

  /** A planned file receipt is applied to the disk it was drawn on. */
  lemma DrawnApplied(w: World, id: Id)
    requires id in w.ledger && id in w.bodies && MayApply(w.ledger, id) && Drawn(w.disk.tree, w.bodies[id])
    requires Fits(w.disk, w.bodies[id].effects)
    ensures var b := w.bodies[id];
      var disk := RunTo(w.disk, b.effects, |b.effects|);
      var v := w.(disk := disk, bodies := w.bodies[id := Reread(disk.tree, b, |b.effects|)]);
      Carried(w, id, Finished, 0, {}) == Some(v)
      && Step(w, Apply(id, Finished, 0, {})) == Settled(v.(ledger := v.ledger[id := v.ledger[id].(status := Applied)]), id)
  {
    hide *;
    DrawnRuns(w.disk, w.docs, w.bodies[id]);
    DrawnIsFresh(w, w.bodies[id]);
    CarriedFiles(w, id);
    ApplyIs(w, id, Finished, 0, {});
  }

  /** What an applied file refresh leaves of the ledger. */
  lemma SettledRefresh(w: World, x: Id, p: Id)
    requires x in w.ledger && p in w.ledger && x != p && w.ledger[x] == Successor(p, Applied, true)
    ensures Settled(w, x) == w.(ledger := w.ledger[p := w.ledger[p].(status := Superseded)])
  {
    hide Back;
  }

  /** What an applied undo leaves when the predecessor's content is there. */
  lemma SettledUndo(w: World, u: Id, x: Id, p: Id, effectful: bool)
    requires u in w.ledger && x in w.ledger && p in w.ledger && p in w.bodies && u != x && u != p && x != p
    requires w.ledger[u] == Receipt(Undo, Applied, Some(x), effectful) && w.ledger[x].parent == Some(p) && w.ledger[p].status == Superseded
    requires ContentBack(w.disk.tree, w.docs, w.bodies[p])
    ensures Settled(w, u) ==
            w.(ledger := w.ledger[x := w.ledger[x].(status := Undone)][p := w.ledger[p].(status := Applied)],
               bodies := w.bodies[p := Rerecorded(w.disk.tree, w.bodies[p])])
  {
    assert BackId(w.ledger, u) == Some(p);
    hide ContentBack, Rerecorded;
  }

  /** The refresh of a file mirror that changed something, planned and applied. */
  lemma FileRefreshNow(w: World, p: Id, x: Id, b: Body) returns (n: World)
    requires MayRefresh(w, p, x) && w.ledger[p].effectful && w.bodies[p].Files? && Drawn(w.disk.tree, b)
    requires b.effects != [] && Fits(w.disk, b.effects)
    ensures n == RunFrom(w, [RefreshFiles(p, x, b), Apply(x, Finished, 0, {})])
    ensures n.disk == RunTo(w.disk, b.effects, |b.effects|) && n.docs == w.docs
    ensures n.ledger == w.ledger[x := Successor(p, Applied, true)][p := w.ledger[p].(status := Superseded)]
    ensures n.bodies == w.bodies[x := Reread(n.disk.tree, b, |b.effects|)]
  {
    hide *;
    MayRefreshIs(w, p, x);
    DrawnParts(w.disk.tree, b);
    var v := Added(w, x, Mirror, Some(p), b);
    FileRefreshPlanned(w, p, x, b);
    DrawnApplied(v, x);
    var disk := RunTo(w.disk, b.effects, |b.effects|);
    var u := v.(disk := disk, bodies := v.bodies[x := Reread(disk.tree, b, |b.effects|)]);
    SuccessorIs(p, Applied, true);
    SettledRefresh(u.(ledger := u.ledger[x := u.ledger[x].(status := Applied)]), x, p);
    n := Step(v, Apply(x, Finished, 0, {}));
    TwoSteps(w, RefreshFiles(p, x, b), Apply(x, Finished, 0, {}));
  }

  lemma MayRefreshIs(w: World, p: Id, x: Id)
    requires MayRefresh(w, p, x) && w.ledger[p].effectful
    ensures x !in w.ledger && p in w.ledger && p in w.bodies && x != p && Owner(w.ledger, p, HISTORY) == Some(p)
    ensures w.ledger[p].mode == Mirror && w.ledger[p].status == Applied && Holds(w.disk.tree, w.docs, w.bodies[p])
  {
    hide Holds;
  }

  lemma FileRefreshPlanned(w: World, p: Id, x: Id, b: Body)
    requires MayRefresh(w, p, x) && w.ledger[p].effectful && w.bodies[p].Files? && Drawn(w.disk.tree, b) && b.effects != []
    ensures var v := Added(w, x, Mirror, Some(p), b);
      && Step(w, RefreshFiles(p, x, b)) == v
      && v == w.(ledger := w.ledger[x := Receipt(Mirror, Status.Planned, Some(p), true)], bodies := w.bodies[x := b])
      && MayApply(v.ledger, x)
  {
    DrawnParts(w.disk.tree, b);
    hide Holds, Drawn;
  }

  lemma FileUndoPlanned(w: World, x: Id, u: Id, p: Id, back: Body)
    requires x in w.ledger && x in w.bodies && u !in w.ledger && w.ledger[x] == Successor(p, Applied, true)
    requires Holds(w.disk.tree, w.docs, w.bodies[x]) && DrawnBack(w.disk.tree, w.bodies[x], back) && back.effects != []
    ensures var v := Added(w, u, Undo, Some(x), back);
      && Step(w, UndoFiles(x, u, back)) == v
      && v == w.(ledger := w.ledger[u := Receipt(Undo, Status.Planned, Some(x), true)], bodies := w.bodies[u := back])
      && MayApply(v.ledger, u)
  {
    assert back.Files?;
    hide Holds, DrawnBack;
  }

  /**
   A refresh of a file mirror that changed something, undone at once, brings the mirror back: its content is
   there again, it is applied again, and its receipt holds on the new identities.
   */
  lemma FileRefreshUndone(w: World, p: Id, x: Id, b: Body, u: Id, back: Body) returns (n: World)
    requires MayRefresh(w, p, x) && w.ledger[p].effectful && w.bodies[p].Files? && Drawn(w.disk.tree, b)
    requires b.effects != [] && Fits(w.disk, b.effects)
    requires u !in w.ledger && u != x
    requires var now := RunTo(w.disk, b.effects, |b.effects|);
      DrawnBack(now.tree, Reread(now.tree, b, |b.effects|), back) && Fits(now, back.effects)
    ensures n == RunFrom(w, [RefreshFiles(p, x, b), Apply(x, Finished, 0, {})] + [UndoFiles(x, u, back), Apply(u, Finished, 0, {})])
    ensures ViewOf(n.disk.tree) == ViewOf(w.disk.tree)
    ensures n.ledger == w.ledger[x := Successor(p, Undone, true)][u := Receipt(Undo, Applied, Some(x), true)]
    ensures p in n.bodies && Holds(n.disk.tree, n.docs, n.bodies[p])
  {
    hide *;
    MayRefreshIs(w, p, x);
    DrawnParts(w.disk.tree, b);
    var v := FileRefreshNow(w, p, x, b);
    var done, now := Reread(v.disk.tree, b, |b.effects|), v.disk;
    DrawnRuns(w.disk, v.docs, b);
    DrawnBackIs(now.tree, b, back);
    FileUndoPlanned(v, x, u, p, back);
    var y := Added(v, u, Undo, Some(x), back);
    DrawnApplied(y, u);
    DrawnParts(now.tree, back);
    var disk := RunTo(now, back.effects, |back.effects|);
    var z := y.(disk := disk, bodies := y.bodies[u := Reread(disk.tree, back, |back.effects|)]);
    var settled := z.(ledger := z.ledger[u := z.ledger[u].(status := Applied)]);
    SuccessorIs(p, Applied, true);
    SuccessorIs(p, Undone, true);
    DrawnBackRestores(w.disk, b, done, back);
    MirrorBack(w.disk, w.docs, b, back, w.bodies[p]);
    SettledUndo(settled, u, x, p, true);
    n := Step(y, Apply(u, Finished, 0, {}));
    BackHolds(disk.tree, n.docs, w.bodies[p]);
    TwoSteps(v, UndoFiles(x, u, back), Apply(u, Finished, 0, {}));
    RunJoin(w, [RefreshFiles(p, x, b), Apply(x, Finished, 0, {})], [UndoFiles(x, u, back), Apply(u, Finished, 0, {})]);
  }

  lemma MirrorBack(d: Disk, docs: M.Docs, b: Body, back: Body, previous: Body)
    requires previous.Files? && Holds(d.tree, docs, previous) && Drawn(d.tree, b)
    requires var now := RunTo(d, b.effects, |b.effects|);
      Drawn(now.tree, back) && ViewOf(RunTo(now, back.effects, |back.effects|).tree) == ViewOf(d.tree)
    ensures ContentBack(RunTo(RunTo(d, b.effects, |b.effects|), back.effects, |back.effects|).tree, docs, previous)
  {
    hide *;
    DrawnParts(d.tree, b);
    var now := RunTo(d, b.effects, |b.effects|);
    DrawnParts(now.tree, back);
    HoldsRoots(d.tree, docs, previous);
    RootsStay(d, b.effects, |b.effects|, previous.roots);
    RootsStay(now, back.effects, |back.effects|, previous.roots);
    BackOnSameContents(d.tree, RunTo(now, back.effects, |back.effects|).tree, docs, docs, previous);
  }

  lemma HoldsRoots(t: Tree, docs: M.Docs, b: Body)
    requires b.Files? && Holds(t, docs, b)
    ensures RootsHold(t, b.roots)
  {
    hide RootsHold;
  }

  // ---------------------------------------------------------------- after a clash

  /**
   After every clash over a configuration mirror one more edit of the source and one more refresh leave it two
   living successors, the newer one applied and the other with the status it had: two applied ones if that was
   applied. So the clash is not only where the proof stops.
   */
  lemma ClashContinues(w: World, id: Id, part: set<Location>, p: Id, s: Id, t: Id, q: Request, c: M.Stanza,
      source: M.Stanza, d: M.Stanza)
    returns (run: seq<Action>)
    requires Sound(w) && Clash(w, Apply(id, Finished, 0, part)) && id in w.ledger && Predecessor(w.ledger, id) == Some(p)
    requires Lives(w.ledger, s, p) && w.ledger[id].parent != Some(s) && p in w.ledger && p in w.bodies
    requires w.ledger[p].mode == Mirror && Mirrors(w.bodies[p], q, c) && TwoPlaces(q)
    requires w.render(source) == Some(d) && d != c && d != map[] && t !in w.ledger
    ensures Ordinary(run)
    ensures var m := RunFrom(w, [Apply(id, Finished, 0, part)] + run).ledger;
      Lives(m, s, p) && Lives(m, t, p) && s != t && m[t].status == Applied && m[s].status == w.ledger[s].status
  {
    hide *;
    var v := ClashStep(w, id, part, p, s, q, c);
    var rest, n := EditRefresh(v, q, p, t, c, source, d);
    run := rest;
    SuccessorIs(p, Applied, true);
    SoundIs(w);
    LivesIs(w.ledger, s, p);
    RootedIs(w.ledger, s);
    LivesIs(n.ledger, s, p);
    LivesIs(n.ledger, t, p);
    OneStep(w, Apply(id, Finished, 0, part));
    RunJoin(w, [Apply(id, Finished, 0, part)], run);
  }

  /** And a run after the clash in which only the source changes reaches two applied successors of that very mirror. */
  lemma ClashReachesTwo(w: World, id: Id, part: set<Location>, p: Id, s: Id, q: Request, c: M.Stanza, forC: M.Stanza,
      d: M.Stanza, forD: M.Stanza,
                        ids: seq<Id>)
    returns (run: seq<Action>)
    requires Sound(w) && Clash(w, Apply(id, Finished, 0, part)) && id in w.ledger && Predecessor(w.ledger, id) == Some(p)
    requires Lives(w.ledger, s, p) && w.ledger[id].parent != Some(s) && p in w.ledger && p in w.bodies
    requires w.ledger[p].mode == Mirror && Mirrors(w.bodies[p], q, c) && TwoPlaces(q)
    requires w.render(forC) == Some(c) && w.render(forD) == Some(d) && d != c && c != map[] && d != map[]
    requires |ids| == 7 && Distinct(ids) && forall i <- ids :: i !in w.ledger
    ensures Ordinary(run) && BothStand(RunFrom(w, [Apply(id, Finished, 0, part)] + run).ledger, p, ids[2], ids[5])
  {
    hide *;
    var v := ClashStep(w, id, part, p, s, q, c);
    ReadyIs(v, q, p, c);
    run := TwoSuccessors(v, q, p, c, forC, d, forD, ids);
    OneStep(w, Apply(id, Finished, 0, part));
    RunJoin(w, [Apply(id, Finished, 0, part)], run);
  }

  lemma LivesIs(m: Ledger, s: Id, p: Id)
    ensures Lives(m, s, p) <==>
      s in m && m[s].parent == Some(p) && m[s].mode != Undo && m[s].effectful && (m[s].status == Applied || m[s].status == Superseded)
  {
  }

  lemma OneStep(w: World, a: Action)
    ensures RunFrom(w, [a]) == Step(w, a)
  {
    hide Step;
    assert [a][1..] == [];
    assert RunFrom(Step(w, a), []) == Step(w, a);
  }

  lemma ClashEvent(w: World, id: Id, part: set<Location>)
    requires Clash(w, Apply(id, Finished, 0, part))
    ensures id in w.ledger && id in w.bodies && MayApply(w.ledger, id) && Carried(w, id, Finished, 0, part).Some?
    ensures EventOf(w, Apply(id, Finished, 0, part)) == Some(Applies(id, Finished, true))
  {
    hide Carried, Step, Back;
  }

  lemma PredecessorIs(m: Ledger, id: Id, p: Id)
    requires id in m && Predecessor(m, id) == Some(p)
    ensures m[id].mode == Undo && m[id].parent.Some? && m[id].parent.value in m && m[m[id].parent.value].parent == Some(p)
    ensures p in m && m[p].status == Superseded
  {
  }

  lemma RootedIs(m: Ledger, id: Id)
    requires Rooted(m) && id in m && m[id].parent.Some?
    ensures m[id].parent.value != id
  {
    assert RootedAt(m, id);
  }

  lemma AppliesKeys(m: Ledger, id: Id, content: bool)
    ensures Next(m, Applies(id, Finished, content)).Keys == m.Keys
  {
  }

  /** The revived receipt, with everything but its status as it was. */
  lemma ClashRevives(w: World, id: Id, part: set<Location>, p: Id)
    requires Sound(w) && Clash(w, Apply(id, Finished, 0, part)) && id in w.ledger && Predecessor(w.ledger, id) == Some(p) && p in w.ledger
    ensures var v := Step(w, Apply(id, Finished, 0, part));
      v.ledger.Keys == w.ledger.Keys && v.ledger[p] == w.ledger[p].(status := Applied)
  {
    hide *;
    var e := Applies(id, Finished, true);
    SoundIs(w);
    ClashEvent(w, id, part);
    PredecessorIs(w.ledger, id, p);
    StepIsNext(w, Apply(id, Finished, 0, part));
    NextIfIs(w.ledger, Some(e));
    AppliesKeys(w.ledger, id, true);
    AppliedNext(w.ledger, e, p);
    Kept(w.ledger, e, p);
  }

  lemma CarriedBody(w: World, id: Id, part: set<Location>, p: Id)
    requires id in w.bodies && p in w.bodies && w.bodies[p].Stanzas? && Carried(w, id, Finished, 0, part).Some?
    ensures var v := Carried(w, id, Finished, 0, part).value; v.render == w.render && p in v.bodies && v.bodies[p] == w.bodies[p]
  {
    hide Fresh, Carries, RunTo, Reread;
  }

  lemma SettledBody(w: World, id: Id, p: Id)
    requires id in w.ledger && p in w.bodies && w.bodies[p].Stanzas?
    ensures Settled(w, id).render == w.render && p in Settled(w, id).bodies && Settled(w, id).bodies[p] == w.bodies[p]
  {
    hide Related, ContentBack, BackId;
  }

  lemma MirrorIs(w: World, p: Id, q: Request, c: M.Stanza)
    requires Coherent(w) && p in w.ledger && p in w.bodies && Mirrors(w.bodies[p], q, c)
    ensures w.bodies[p].Stanzas? && w.ledger[p].effectful
  {
  }

  lemma HeldMirror(t: Tree, docs: M.Docs, b: Body, q: Request, c: M.Stanza)
    requires Mirrors(b, q, c) && Holds(t, docs, b)
    ensures There(docs, q, c)
  {
    MirrorHolds(docs, b, q, c);
    hide There, M.Holds;
  }

  /** Right after the clash the mirror stands again, and the other successor is what it was. */
  lemma ClashStep(w: World, id: Id, part: set<Location>, p: Id, s: Id, q: Request, c: M.Stanza) returns (v: World)
    requires Sound(w) && Clash(w, Apply(id, Finished, 0, part)) && id in w.ledger && Predecessor(w.ledger, id) == Some(p)
    requires Lives(w.ledger, s, p) && w.ledger[id].parent != Some(s)
    requires p in w.ledger && p in w.bodies && w.ledger[p].mode == Mirror && Mirrors(w.bodies[p], q, c)
    ensures v == Step(w, Apply(id, Finished, 0, part)) && v.render == w.render && v.ledger.Keys == w.ledger.Keys
    ensures Closed(v.disk.tree) && Stands(v, p, q, c) && s in v.ledger && v.ledger[s] == w.ledger[s]
  {
    hide *;
    v := Step(w, Apply(id, Finished, 0, part));
    StepSound(w, Apply(id, Finished, 0, part));
    SoundIs(w);
    SoundIs(v);
    MirrorIs(w, p, q, c);
    ClashEvent(w, id, part);
    PredecessorIs(w.ledger, id, p);
    ClashRevives(w, id, part, p);
    ApplyIs(w, id, Finished, 0, part);
    CarriedBody(w, id, part, p);
    var d := Carried(w, id, Finished, 0, part).value;
    SettledBody(d.(ledger := d.ledger[id := d.ledger[id].(status := Applied)]), id, p);
    Revival(w, id, 0, part);
    HeldMirror(v.disk.tree, v.docs, v.bodies[p], q, c);
    LivesIs(w.ledger, s, p);
    RootedIs(w.ledger, s);
    StandsAre(v, p, q, c);
    KnownIs(v, p);
  }
}
