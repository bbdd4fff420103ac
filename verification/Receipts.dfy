/**
 The receipt operations as the program runs them (internal/agentinterop/relations.go:64-123, refresh.go:18-60,
 apply.go:40-57, mcp.go:204-215): the fields of `Service` are the receipt store and what is on the disk.
 */
module Receipts {
  import opened Options
  import opened FileTree
  import opened Effects
  import opened Transaction
  import opened Relations
  import opened Succession
  import M = McpOwnership

  class Service {
    const render: M.Stanza -> Option<M.Stanza>
    var ledger: Ledger
    var bodies: map<Id, Body>
    var disk: Disk
    var docs: M.Docs

    constructor (render: M.Stanza -> Option<M.Stanza>, disk: Disk, docs: M.Docs)
      ensures View() == StartWorld(render, disk, docs)
    {
      this.render, this.disk, this.docs := render, disk, docs;
      ledger, bodies := map[], map[];
    }

    ghost function View(): World
      reads this
    {
      World(render, ledger, bodies, disk, docs)
    }

    method VerifyStanzas(edits: seq<M.Edit>) returns (ok: bool)
      ensures ok <==> M.Holds(docs, edits)
    {
      for i := 0 to |edits|
        invariant forall j :: 0 <= j < i ==>
                  M.StanzaAt(docs, edits[j].loc, M.SlotOf(edits[j].agent, edits[j].name)) == edits[j].after
      {
        if M.StanzaAt(docs, edits[i].loc, M.SlotOf(edits[i].agent, edits[i].name)) != edits[i].after {
          return false;
        }
      }
      return true;
    }

    method VerifyReceipt(b: Body) returns (ok: bool)
      ensures ok <==> Holds(disk.tree, docs, b)
    {
      match b
      case Stanzas(_, edits, _, _, _) =>
        ok := VerifyStanzas(edits);
      case Files(roots, _, effects, completed) =>
        if |effects| < completed || !RootsHold(disk.tree, roots) {
          return false;
        }
        for i := 0 to completed
          invariant forall j :: 0 <= j < i ==>
            effects[j].post.Some? && Snapshot(disk.tree, effects[j].loc).Some?
                && SameImage(Snapshot(disk.tree, effects[j].loc).value, effects[j].post.value)
        {
          var now := Snapshot(disk.tree, effects[i].loc);
          if effects[i].post == None || now == None || !SameImage(now.value, effects[i].post.value) {
            return false;
          }
        }
        return true;
    }

    /** The first receipt up the chain that changed something; no more than HISTORY steps are taken. */
    method FindOwner(of: Id) returns (owner: Option<Id>)
      requires of in ledger
      ensures owner == Owner(ledger, of, HISTORY)
    {
      var at := of;
      var n: nat := 0;
      while !ledger[at].effectful && ledger[at].parent != None
        invariant n <= HISTORY && at in ledger && Owner(ledger, of, HISTORY) == Owner(ledger, at, HISTORY - n)
        decreases HISTORY - n
      {
        if n >= HISTORY || ledger[at].parent.value !in ledger {
          return None;
        }
        at := ledger[at].parent.value;
        n := n + 1;
      }
      return Some(at);
    }

    method Add(id: Id, mode: Mode, parent: Option<Id>, b: Body)
      modifies this`ledger, this`bodies
      ensures View() == Added(old(View()), id, mode, parent, b)
    {
      ledger := ledger[id := Receipt(mode, Status.Planned, parent, Effectful(b))];
      bodies := bodies[id := b];
    }

    /** `drawn` is the file plan of the builder; a configuration mirror is planned from the files as they are. */
    method Refresh(of: Id, id: Id, drawn: Body) returns (planned: bool)
      requires Sound(View()) && Drawn(disk.tree, drawn)
      modifies this`ledger, this`bodies
      ensures View() == Step(old(View()), if of in old(bodies)
                && old(bodies)[of].Stanzas? then RefreshStanzas(of, id) else RefreshFiles(of, id, drawn))
      ensures planned <==> id !in old(ledger) && id in ledger
      ensures planned ==>
                && of in old(ledger) && old(ledger)[of].mode == Mirror && old(ledger)[of].status == Applied
                && (var owner := if old(ledger)[of].effectful || old(ledger)[of].parent == None then of else old(ledger)[of].parent.value;
                    owner in old(bodies) && Holds(disk.tree, docs, old(bodies)[owner]) && ledger[id].parent == Some(owner))
    {
      planned := false;
      if id in ledger || of !in ledger || ledger[of].mode != Mirror || ledger[of].status != Applied {
        return;
      }
      OwnerIsNear(ledger, of);
      var owner := FindOwner(of);
      assert RootedAt(ledger, of);
      var ok := VerifyReceipt(bodies[owner.value]);
      if !ok {
        return;
      }
      assert MayRefresh(View(), of, id);
      match bodies[of]
      case Files(_, _, _, _) =>
        Add(id, Mirror, owner, drawn);
        planned := true;
      case Stanzas(q, _, _, _, _) =>
        var b := PlanStanza(q, owner.value);
        if b.Some? {
          Add(id, Mirror, owner, b.value);
          planned := true;
        }
    }

    /** `planMCP` for a refresh: the one stanza rendered anew and the files as they are to be written. */
    method PlanStanza(q: Request, owner: Id) returns (b: Option<Body>)
      requires owner in ledger && owner in bodies
      ensures b == StanzaPlan(View(), q, Mirror, Some(owner))
    {
      var source := M.StanzaAt(docs, q.from, FromSlot(q));
      if source == None {
        return None;
      }
      var rendered := render(source.value);
      if rendered == None || rendered == Some(map[]) {
        return None;
      }
      var t := M.Transfer(false, q.from, q.fromAgent, q.name, q.to, q.toAgent, q.target, rendered.value,
                          Claims(bodies[owner], q), q.adopt || ledger[owner].mode != Mirror);
      var planned := M.Planned(docs, t);
      if planned == None {
        return None;
      }
      b := Some(Stanzas(q, M.SavedAll(planned.value.1), {q.from, q.to}, docs, Only(planned.value.0, {q.from, q.to})));
    }

    /** `updateRelationship`: the predecessor's content is compared entry by entry and recorded anew on the way. */
    method UpdateRelationship(id: Id)
      requires id in ledger && Rooted(ledger) && bodies.Keys == ledger.Keys
      modifies this`ledger, this`bodies
      ensures View() == Settled(old(View()), id)
    {
      var r := ledger[id];
      if r.parent == None || (r.mode != Undo && !r.effectful) {
        return;
      }
      assert RootedAt(ledger, id);
      if r.mode == Mirror || r.mode == Move {
        ledger := WithStatus(ledger, r.parent.value, Superseded);
        return;
      }
      if r.mode != Undo {
        return;
      }
      var x := r.parent.value;
      assert RootedAt(ledger, x);
      ledger := WithStatus(ledger, x, Undone);
      if ledger[x].parent == None || ledger[ledger[x].parent.value].status != Superseded {
        return;
      }
      var p := ledger[x].parent.value;
      assert BackId(old(ledger), id) == Some(p);
      var ok, b := Compare(bodies[p]);
      if ok {
        bodies := bodies[p := b];
        ledger := WithStatus(ledger, p, Applied);
      }
    }

    /** The recorded-content check, with the identities there are now. */
    method Compare(b: Body) returns (ok: bool, again: Body)
      ensures ok <==> ContentBack(disk.tree, docs, b)
      ensures ok ==> again == Rerecorded(disk.tree, b)
    {
      again := b;
      match b
      case Stanzas(_, edits, _, _, _) =>
        ok := VerifyStanzas(edits);
      case Files(roots, _, effects, completed) =>
        if |effects| < completed || !RootsHold(disk.tree, roots) {
          return false, b;
        }
        var posts := effects;
        for i := 0 to completed
          invariant |posts| == |effects|
          invariant forall j :: 0 <= j < i ==>
                    SameThere(disk.tree, effects[j]) && posts[j] == effects[j].(post := Snapshot(disk.tree, effects[j].loc))
          invariant forall j :: i <= j < |effects| ==> posts[j] == effects[j]
        {
          var now := Snapshot(disk.tree, effects[i].loc);
          if effects[i].post == None || now == None || !SameContent(now.value, effects[i].post.value) {
            return false, b;
          }
          posts := posts[i := posts[i].(post := now)];
        }
        again := b.(effects := posts);
        assert again.effects == Rerecorded(disk.tree, b).effects;
        return true, again;
    }
  }
}
