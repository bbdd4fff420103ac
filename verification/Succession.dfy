/**
 Receipts with what they wrote, over the disk they wrote it to (internal/agentinterop/relations.go:64-123,
 refresh.go:18-60, apply.go:95-134 and 268-322, mcp.go:204-215 and 255-312, mcp_ownership.go:35-129).

 A file receipt records the image of every entry it published; a configuration receipt records the stanzas it
 edited. The receipt check and the recorded-content check of every operation are computed from those records
 and from what is on the disk at that moment. Configuration files are kept apart from the tree.
 */
module Succession {
  import opened Options
  import opened FileTree
  import opened Effects
  import opened Transaction
  import opened Execution
  import opened McpValues
  import opened Relations
  import M = McpOwnership

  datatype Request = Request(from: Location, fromAgent: Agent, name: string, to: Location, toAgent: Agent, target: string, adopt: bool)

  /** `read` are the files the plan guards, `seen` what they held then, `writes` what they are to hold. */
  datatype Body =
    | Files(roots: map<string, nat>, guards: seq<Observation>, effects: seq<Effect>, completed: nat)
    | Stanzas(request: Request, edits: seq<M.Edit>, read: set<Location>, seen: M.Docs, writes: M.Docs)

  /** `render` is the destination's form of a source stanza. */
  datatype World = World(
    render: M.Stanza -> Option<M.Stanza>, ledger: Ledger, bodies: map<Id, Body>, disk: Disk, docs: M.Docs)

  predicate Effectful(b: Body) {
    match b
    case Files(_, _, effects, _) => effects != []
    case Stanzas(_, edits, _, _, _) => edits != []
  }

  function RecordOf(b: Body, mode: Mode, status: Status, parent: Option<Id>): Record
    requires b.Files?
  {
    Record(mode, status, b.roots, b.guards, b.effects, b.completed, None, parent)
  }

  /** A bare record of what a file receipt wrote. */
  function Written(b: Body): Record
    requires b.Files?
  {
    RecordOf(b, Mirror, Applied, None)
  }

  // ---------------------------------------------------------------- the checks

  /** `verifyReceipt`: every published entry is the very one recorded; every edited stanza is what the edit left. */
  predicate Holds(tree: Tree, docs: M.Docs, b: Body) {
    match b
    case Files(roots, _, effects, completed) => completed <= |effects| && RootsHold(tree, roots) && PostsHold(tree, Written(b))
    case Stanzas(_, edits, _, _, _) => M.Holds(docs, edits)
  }

  /** The recorded-content check of a predecessor: the same content, whatever its identity. */
  predicate ContentBack(tree: Tree, docs: M.Docs, b: Body) {
    match b
    case Files(roots, _, effects, completed) =>
      && completed <= |effects| && RootsHold(tree, roots)
      && forall i :: 0 <= i < completed ==> SameThere(tree, effects[i])
    case Stanzas(_, edits, _, _, _) => M.Holds(docs, edits)
  }

  predicate SameThere(tree: Tree, e: Effect) {
    e.post.Some? && Snapshot(tree, e.loc).Some? && SameContent(Snapshot(tree, e.loc).value, e.post.value)
  }

  /** The newly observed identities, recorded. */
  function Rerecorded(tree: Tree, b: Body): Body {
    match b
    case Files(_, _, effects, completed) =>
      b.(effects := seq(|effects|, i requires 0 <= i < |effects| =>
           if i < completed then effects[i].(post := Snapshot(tree, effects[i].loc)) else effects[i]))
    case Stanzas(_, _, _, _, _) => b
  }

  // ---------------------------------------------------------------- plans

  /** A file plan as the builder leaves it. */
  ghost predicate Drawn(tree: Tree, b: Body) {
    b.Files? && b.completed == 0 && Built(tree, Written(b))
  }

  /** A file plan that puts back what the confirmed effects of `b` replaced, last one first. */
  ghost predicate DrawnBack(tree: Tree, b: Body, back: Body) {
    && b.Files? && b.completed <= |b.effects| && Drawn(tree, back) && |back.effects| == b.completed
    && forall j :: 0 <= j < b.completed ==>
         back.effects[j].loc == b.effects[b.completed - 1 - j].loc
         && Goal(back.effects[j]) == Wanted(b.effects[b.completed - 1 - j].before, Payload(b.effects[b.completed - 1 - j].before))
  }

  function FromSlot(q: Request): M.Slot { M.SlotOf(q.fromAgent, q.name) }

  function ToSlot(q: Request): M.Slot { M.SlotOf(q.toAgent, q.target) }

  predicate SameDestination(p: Request, q: Request) {
    p.to == q.to && p.toAgent == q.toAgent && p.target == q.target
  }

  predicate SameSource(p: Request, q: Request) {
    p.from == q.from && p.fromAgent == q.fromAgent && p.name == q.name
  }

  /** The receipt edited this very stanza. */
  predicate Claims(b: Body, q: Request) {
    b.Stanzas? && exists e <- b.edits :: e.loc == q.to && e.name == q.target
  }

  function TransferOf(w: World, q: Request, mode: Mode, rendered: M.Stanza, owner: Option<Id>): M.Transfer
    requires owner.Some? ==> owner.value in w.ledger && owner.value in w.bodies
  {
    M.Transfer(mode == Move, q.from, q.fromAgent, q.name, q.to, q.toAgent, q.target, rendered,
               owner.Some? && Claims(w.bodies[owner.value], q),
               mode == Mirror && (q.adopt || (owner.Some? && w.ledger[owner.value].mode != Mirror)))
  }

  function Only(docs: M.Docs, ls: set<Location>): M.Docs {
    map l | l in docs && l in ls :: docs[l]
  }

  /** The plan of a configuration transfer, or none: no source, nothing to render, or another's stanza in the way. */
  function StanzaPlan(w: World, q: Request, mode: Mode, owner: Option<Id>): Option<Body>
    requires owner.Some? ==> owner.value in w.ledger && owner.value in w.bodies
  {
    var source := M.StanzaAt(w.docs, q.from, FromSlot(q));
    if source == None || w.render(source.value) == None || w.render(source.value) == Some(map[]) then None
    else
      match M.Planned(w.docs, TransferOf(w, q, mode, w.render(source.value).value, owner))
      case None => None
      case Some((done, edits)) =>
        Some(Stanzas(q, M.SavedAll(edits), {q.from, q.to}, w.docs, Only(done, {q.from, q.to})))
  }

  /** The files after putting every stanza of `edits[i..]` back, last one first. */
  function PutBack(docs: M.Docs, edits: seq<M.Edit>): Option<M.Docs> {
    if edits == [] then Some(docs)
    else
      match PutBack(docs, edits[1..])
      case None => None
      case Some(later) =>
        var e := edits[0];
        match M.Patch(M.DocAt(later, e.loc), e.agent, e.name, e.before)
        case None => None
        case Some(d) => Some(later[e.loc := d])
  }

  function EditLocs(edits: seq<M.Edit>): set<Location> {
    set e | e in edits :: e.loc
  }

  function UndoPlan(docs: M.Docs, b: Body): Option<Body>
    requires b.Stanzas?
  {
    match PutBack(docs, b.edits)
    case None => None
    case Some(after) =>
      Some(Stanzas(b.request, M.SavedAll(M.Reversed(b.edits)), EditLocs(b.edits), docs, Only(after, EditLocs(b.edits))))
  }

  /** What `findMCPOwner` finds for a destination. */
  function OwnersOf(w: World, q: Request): set<Id> {
    set id | id in w.ledger && id in w.bodies && w.bodies[id].Stanzas? && Owns(w.ledger, Some(id))
        && SameDestination(w.bodies[id].request, q)
  }

  // ---------------------------------------------------------------- one operation

  datatype Action =
    | PlanFiles(id: Id, mode: Mode, body: Body)
    | PlanStanzas(id: Id, mode: Mode, request: Request, owner: Option<Id>)
    | RefreshFiles(of: Id, id: Id, body: Body)
    | RefreshStanzas(of: Id, id: Id)
    | UndoFiles(of: Id, id: Id, body: Body)
    | UndoStanzas(of: Id, id: Id)
    | Apply(id: Id, ending: Ending, steps: nat, part: set<Location>)
    | Outside(disk: Disk, docs: M.Docs)

  function Added(w: World, id: Id, mode: Mode, parent: Option<Id>, b: Body): World {
    w.(ledger := w.ledger[id := Receipt(mode, Status.Planned, parent, Effectful(b))], bodies := w.bodies[id := b])
  }

  function AddedIf(w: World, id: Id, mode: Mode, parent: Option<Id>, b: Option<Body>): World {
    if b == None then w else Added(w, id, mode, parent, b.value)
  }

  predicate Known(w: World, id: Id) { id in w.ledger && id in w.bodies }

  /** A refresh may be planned: an applied mirror whose owner's receipt holds. */
  predicate MayRefresh(w: World, of: Id, id: Id) {
    && id !in w.ledger && Known(w, of) && w.ledger[of].mode == Mirror && w.ledger[of].status == Applied
    && var owner := Owner(w.ledger, of, HISTORY);
       owner.Some? && Known(w, owner.value) && Holds(w.disk.tree, w.docs, w.bodies[owner.value])
  }

  predicate MayPlanUndo(w: World, of: Id, id: Id) {
    id !in w.ledger && Known(w, of) && MayUndo(w.ledger, of) && Holds(w.disk.tree, w.docs, w.bodies[of])
  }

  /** An owner, if any, is the only one, holds, and is of the same source unless the request adopts. */
  predicate OwnerFits(w: World, mode: Mode, q: Request, owner: Option<Id>) {
    if mode in {Mirror, Move} then
      match owner
      case None => OwnersOf(w, q) == {}
      case Some(o) =>
        && OwnersOf(w, q) == {o} && Known(w, o) && w.bodies[o].Stanzas? && Holds(w.disk.tree, w.docs, w.bodies[o])
        && (SameSource(w.bodies[o].request, q) || q.adopt)
    else owner == None
  }

  // Applying.

  /** The guarded files are as they were when the plan was made. */
  predicate Fresh(w: World, b: Body) {
    match b
    case Files(roots, guards, _, _) =>
      RootsHold(w.disk.tree, roots)
      && forall k :: 0 <= k < |guards| ==>
           Snapshot(w.disk.tree, guards[k].loc).Some? && SameImage(Snapshot(w.disk.tree, guards[k].loc).value, guards[k].image)
    case Stanzas(_, _, read, seen, _) => forall l <- read :: M.DocAt(w.docs, l) == M.DocAt(seen, l)
  }

  /** The first `k` effects can all be published and confirmed. */
  ghost predicate Carries(d: Disk, es: seq<Effect>, k: nat) {
    k <= |es| && forall j :: 0 <= j < k ==> PublishEffect(RunTo(d, es, j), es[j]).Some? && FitsAt(d, es, j)
  }

  /** The confirmed images of the first `k` effects are those on the disk afterwards. */
  function Reread(t: Tree, b: Body, k: nat): Body
    requires b.Files?
  {
    Rerecorded(t, b.(completed := k))
  }

  /** What the publications of one application leave, or none when the plan is stale or cannot be carried that far. */
  ghost function Carried(w: World, id: Id, ending: Ending, steps: nat, part: set<Location>): Option<World>
    requires id in w.bodies
  {
    var b := w.bodies[id];
    if !Fresh(w, b) then None
    else
      match b
      case Files(_, _, effects, _) =>
        var k := if ending == Finished then |effects| else steps;
        if !Carries(w.disk, effects, k) then None
        else
          var disk := RunTo(w.disk, effects, k);
          Some(w.(disk := disk, bodies := w.bodies[id := Reread(disk.tree, b, k)]))
      case Stanzas(_, _, _, _, writes) =>
        Some(w.(docs := w.docs + if ending == Finished then writes else Only(writes, part)))
  }

  function BackId(m: Ledger, id: Id): Option<Id> {
    if id in m then Predecessor(m, id) else None
  }

  /** The recorded content of the predecessor an undo would bring back is there. */
  predicate Back(w: World, id: Id) {
    var p := BackId(w.ledger, id);
    p.Some? && p.value in w.bodies && ContentBack(w.disk.tree, w.docs, w.bodies[p.value])
  }

  /** `updateRelationship`. */
  function Settled(w: World, id: Id): World
    requires id in w.ledger
  {
    var m := Related(w.ledger, id, Back(w, id));
    if BackId(w.ledger, id).Some? && Back(w, id) then
      var p := BackId(w.ledger, id).value;
      w.(ledger := m, bodies := w.bodies[p := Rerecorded(w.disk.tree, w.bodies[p])])
    else w.(ledger := m)
  }

  ghost function AfterApply(w: World, id: Id, ending: Ending, steps: nat, part: set<Location>): World {
    if !MayApply(w.ledger, id) || id !in w.bodies || ending == Stale then w
    else
      var v := Carried(w, id, ending, steps, part);
      if v == None then w
      else if ending == Finished then Settled(v.value.(ledger := WithStatus(v.value.ledger, id, Applied)), id)
      else v.value.(ledger := WithStatus(v.value.ledger, id, if ending == PartWay then Partial else InterruptedUnknown))
  }

  ghost function Step(w: World, a: Action): World {
    match a
    case PlanFiles(id, mode, b) =>
      if id in w.ledger || mode == Undo || !Drawn(w.disk.tree, b) then w else Added(w, id, mode, None, b)
    case PlanStanzas(id, mode, q, owner) =>
      if id in w.ledger || mode !in {Copy, Mirror, Move} || !OwnerFits(w, mode, q, owner) then w
      else AddedIf(w, id, mode, owner, StanzaPlan(w, q, mode, owner))
    case RefreshFiles(of, id, b) =>
      if !MayRefresh(w, of, id) || !w.bodies[of].Files? || !Drawn(w.disk.tree, b) then w
      else Added(w, id, Mirror, Owner(w.ledger, of, HISTORY), b)
    case RefreshStanzas(of, id) =>
      if !MayRefresh(w, of, id) || !w.bodies[of].Stanzas? then w
      else
        var owner := Owner(w.ledger, of, HISTORY);
        AddedIf(w, id, Mirror, owner, StanzaPlan(w, w.bodies[of].request, Mirror, owner))
    case UndoFiles(of, id, back) =>
      if !MayPlanUndo(w, of, id) || !DrawnBack(w.disk.tree, w.bodies[of], back) then w
      else Added(w, id, Undo, Some(of), back)
    case UndoStanzas(of, id) =>
      if !MayPlanUndo(w, of, id) || !w.bodies[of].Stanzas? then w
      else AddedIf(w, id, Undo, Some(of), UndoPlan(w.docs, w.bodies[of]))
    case Apply(id, ending, steps, part) => AfterApply(w, id, ending, steps, part)
    case Outside(disk, docs) => if Closed(disk.tree) then w.(disk := disk, docs := docs) else w
  }

  /** The operation as the ledger sees it, with the answers the disk gave. */
  ghost function EventOf(w: World, a: Action): Option<Event> {
    if Step(w, a).ledger == w.ledger && !a.Apply? then None
    else
      match a
      case PlanFiles(id, mode, b) => Some(Plans(id, mode, None, Effectful(b)))
      case PlanStanzas(id, mode, q, owner) =>
        var b := if owner.Some? ==> Known(w, owner.value) then StanzaPlan(w, q, mode, owner) else None;
        if b == None then None else Some(Plans(id, mode, owner, Effectful(b.value)))
      case RefreshFiles(of, id, b) => Some(Refreshes(of, id, true, Effectful(b)))
      case RefreshStanzas(of, id) =>
        if !MayRefresh(w, of, id) || !w.bodies[of].Stanzas? then None
        else
          var b := StanzaPlan(w, w.bodies[of].request, Mirror, Owner(w.ledger, of, HISTORY));
          if b == None then None else Some(Refreshes(of, id, true, Effectful(b.value)))
      case UndoFiles(of, id, b) => Some(Undoes(of, id, true, Effectful(b)))
      case UndoStanzas(of, id) =>
        if of !in w.bodies || !w.bodies[of].Stanzas? then None
        else
          var b := UndoPlan(w.docs, w.bodies[of]);
          if b == None then None else Some(Undoes(of, id, true, Effectful(b.value)))
      case Apply(id, ending, steps, part) =>
        if !MayApply(w.ledger, id) || id !in w.bodies || ending == Stale then None
        else
          var v := Carried(w, id, ending, steps, part);
          if v == None then None else Some(Applies(id, ending, Back(v.value, id)))
      case Outside(_, _) => None
  }

  function NextIf(m: Ledger, e: Option<Event>): Ledger {
    if e.Some? then Next(m, e.value) else m
  }

  lemma StepIsNext(w: World, a: Action)
    ensures Step(w, a).ledger == NextIf(w.ledger, EventOf(w, a))
  {
    hide Drawn, DrawnBack, Holds, StanzaPlan, UndoPlan, Carried, Back, OwnersOf;
    match a
    case Apply(id, ending, steps, part) => ApplyIsNext(w, id, ending, steps, part);
    case PlanStanzas(id, mode, q, owner) =>
      if OwnerFits(w, mode, q, owner) && owner.Some? && mode in {Mirror, Move} {
        assert owner.value in OwnersOf(w, q);
        OwnerOwns(w, q, owner.value);
      }
    case _ =>
  }

  lemma OwnerOwns(w: World, q: Request, o: Id)
    requires o in OwnersOf(w, q)
    ensures Owns(w.ledger, Some(o)) && Known(w, o)
  {
  }

  lemma CarriedKeeps(w: World, id: Id, ending: Ending, steps: nat, part: set<Location>)
    requires id in w.bodies && Carried(w, id, ending, steps, part).Some?
    ensures var v := Carried(w, id, ending, steps, part).value;
      && v.ledger == w.ledger && v.render == w.render && v.bodies.Keys == w.bodies.Keys
      && forall q :: q in w.bodies && q != id ==> v.bodies[q] == w.bodies[q]
  {
    hide Fresh, Carries, RunTo, Reread;
  }

  /** What an application comes to. */
  lemma ApplyIs(w: World, id: Id, ending: Ending, steps: nat, part: set<Location>)
    ensures var n := Step(w, Apply(id, ending, steps, part));
      if !MayApply(w.ledger, id) || id !in w.bodies || ending == Stale || Carried(w, id, ending, steps, part) == None then n == w
      else
        var v := Carried(w, id, ending, steps, part).value;
        && id in v.ledger
        && n == if ending == Finished then Settled(v.(ledger := v.ledger[id := v.ledger[id].(status := Applied)]), id)
                else v.(ledger := v.ledger[id := v.ledger[id].(status := if ending == PartWay then Partial else InterruptedUnknown)])
  {
    hide *;
    StepApplies(w, id, ending, steps, part);
    if MayApply(w.ledger, id) {
      PlannedOnly(w.ledger, id);
    }
    if id in w.bodies && Carried(w, id, ending, steps, part).Some? {
      CarriedKeeps(w, id, ending, steps, part);
    }
    AfterApplyIs(w, id, ending, steps, part);
  }

  lemma StepApplies(w: World, id: Id, ending: Ending, steps: nat, part: set<Location>)
    ensures Step(w, Apply(id, ending, steps, part)) == AfterApply(w, id, ending, steps, part)
  {
    hide AfterApply;
  }

  lemma AfterApplyIs(w: World, id: Id, ending: Ending, steps: nat, part: set<Location>)
    requires MayApply(w.ledger, id) && id in w.bodies && Carried(w, id, ending, steps, part).Some? ==>
               id in Carried(w, id, ending, steps, part).value.ledger
    ensures var n := AfterApply(w, id, ending, steps, part);
      if !MayApply(w.ledger, id) || id !in w.bodies || ending == Stale || Carried(w, id, ending, steps, part) == None then n == w
      else
        var v := Carried(w, id, ending, steps, part).value;
        n == if ending == Finished then Settled(v.(ledger := v.ledger[id := v.ledger[id].(status := Applied)]), id)
             else v.(ledger := v.ledger[id := v.ledger[id].(status := if ending == PartWay then Partial else InterruptedUnknown)])
  {
    hide Carried, Settled;
  }

  /** What its event says of an application. */
  lemma ApplyEvent(w: World, id: Id, ending: Ending, steps: nat, part: set<Location>)
    ensures EventOf(w, Apply(id, ending, steps, part)) ==
      if !MayApply(w.ledger, id) || id !in w.bodies || ending == Stale || Carried(w, id, ending, steps, part) == None then None
      else Some(Applies(id, ending, Back(Carried(w, id, ending, steps, part).value, id)))
  {
    hide Step, Carried, Back;
  }

  lemma NextApplies(m: Ledger, id: Id, ending: Ending, content: bool)
    requires id in m && MayApply(m, id) && ending != Stale
    ensures Next(m, Applies(id, ending, content)) ==
      if ending == Finished then Related(m[id := m[id].(status := Applied)], id, content)
      else m[id := m[id].(status := if ending == PartWay then Partial else InterruptedUnknown)]
  {
    hide Related;
  }

  /** Marking the undo itself applied does not change which receipt it would bring back. */
  lemma SettledLedger(w: World, id: Id)
    requires id in w.ledger && w.ledger[id].status == Status.Planned
    ensures var m := w.ledger[id := w.ledger[id].(status := Applied)];
      Settled(w.(ledger := m), id).ledger == Related(m, id, Back(w, id))
  {
    hide ContentBack, Rerecorded, Related;
  }

  lemma ApplyIsNext(w: World, id: Id, ending: Ending, steps: nat, part: set<Location>)
    ensures Step(w, Apply(id, ending, steps, part)).ledger == NextIf(w.ledger, EventOf(w, Apply(id, ending, steps, part)))
  {
    hide *;
    ApplyIs(w, id, ending, steps, part);
    ApplyEvent(w, id, ending, steps, part);
    NextIfIs(w.ledger, EventOf(w, Apply(id, ending, steps, part)));
    if MayApply(w.ledger, id) && id in w.bodies && ending != Stale && Carried(w, id, ending, steps, part).Some? {
      PlannedOnly(w.ledger, id);
      CarriedKeeps(w, id, ending, steps, part);
      var v := Carried(w, id, ending, steps, part).value;
      NextApplies(w.ledger, id, ending, Back(v, id));
      SettledLedger(v, id);
    }
  }

  // ---------------------------------------------------------------- whole runs

  ghost function RunFrom(w: World, run: seq<Action>): World
    decreases |run|
  {
    if run == [] then w else RunFrom(Step(w, run[0]), run[1..])
  }

  lemma {:induction false} RunJoin(w: World, a: seq<Action>, b: seq<Action>)
    ensures RunFrom(w, a + b) == RunFrom(RunFrom(w, a), b)
    decreases |a|
  {
    hide Step;
    if a == [] {
      assert a + b == b;
    } else {
      RunJoin(Step(w, a[0]), a[1..], b);
      assert (a + b)[1..] == a[1..] + b;
    }
  }

  function StartWorld(render: M.Stanza -> Option<M.Stanza>, disk: Disk, docs: M.Docs): World {
    World(render, map[], map[], disk, docs)
  }

  /** The operation brings back a receipt that still has another living successor. */
  ghost predicate Clash(w: World, a: Action) {
    EventOf(w, a).Some? && Clashes(w.ledger, EventOf(w, a).value)
  }

  lemma RootedStep(w: World, a: Action)
    requires Rooted(w.ledger)
    ensures Rooted(Step(w, a).ledger)
  {
    hide *;
    StepIsNext(w, a);
    NextIfIs(w.ledger, EventOf(w, a));
    if EventOf(w, a).Some? {
      RootedNext(w.ledger, EventOf(w, a).value);
    }
  }

  lemma NextIfIs(m: Ledger, e: Option<Event>)
    ensures NextIf(m, e) == if e.Some? then Next(m, e.value) else m
  {
    hide Next;
  }

  /** With the disk's own answers: one operation keeps at most one living successor of each receipt, and none
      beside an applied one, exactly when it is not such a clash. */
  lemma SingleStep(w: World, a: Action)
    requires Rooted(w.ledger) && Single(w.ledger)
    ensures Single(Step(w, a).ledger) <==> !Clash(w, a)
  {
    StepIsNext(w, a);
    hide Step, EventOf, Single, Next, Clashes;
    if EventOf(w, a).Some? {
      SingleNext(w.ledger, EventOf(w, a).value);
    }
  }

  ghost predicate ClashFree(w: World, run: seq<Action>) {
    forall k :: 0 <= k < |run| ==> !Clash(RunFrom(w, run[..k]), run[k])
  }

  lemma {:induction false} SingleRuns(w: World, run: seq<Action>)
    requires Rooted(w.ledger) && Single(w.ledger) && ClashFree(w, run)
    ensures Rooted(RunFrom(w, run).ledger) && Single(RunFrom(w, run).ledger)
    decreases |run|
  {
    hide Step, Clash, Single, Rooted;
    if run != [] {
      assert run[..0] == [] && RunFrom(w, []) == w;
      assert !Clash(RunFrom(w, run[..0]), run[0]);
      RootedStep(w, run[0]);
      SingleStep(w, run[0]);
      forall k | 0 <= k < |run[1..]|
        ensures !Clash(RunFrom(Step(w, run[0]), run[1..][..k]), run[1..][k])
      {
        assert run[..k + 1][0] == run[0] && run[..k + 1][1..] == run[1..][..k];
        assert !Clash(RunFrom(w, run[..k + 1]), run[k + 1]);
      }
      SingleRuns(Step(w, run[0]), run[1..]);
    }
  }

  /** In a run without a clash no receipt has two successors with effects that are applied, and none beside an applied one. */
  lemma OneAppliedSuccessor(render: M.Stanza -> Option<M.Stanza>, disk: Disk, docs: M.Docs, run: seq<Action>, p: Id,
      s: Id, t: Id)
    requires ClashFree(StartWorld(render, disk, docs), run)
    ensures var m := RunFrom(StartWorld(render, disk, docs), run).ledger;
      Lives(m, s, p) && Lives(m, t, p) ==> s == t && (p in m ==> m[p].status != Applied)
  {
    hide RunFrom, ClashFree;
    SingleRuns(StartWorld(render, disk, docs), run);
  }

  /** Once undone, a receipt stays undone, whatever happens. */
  lemma {:induction false} UndoneStays(w: World, run: seq<Action>, id: Id)
    requires id in w.ledger && w.ledger[id].status == Undone
    ensures id in RunFrom(w, run).ledger && RunFrom(w, run).ledger[id].status == Undone
    decreases |run|
  {
    if run != [] {
      StepIsNext(w, run[0]);
      if EventOf(w, run[0]).Some? {
        Kept(w.ledger, EventOf(w, run[0]).value, id);
      }
      hide Step, EventOf, Next;
      UndoneStays(Step(w, run[0]), run[1..], id);
    }
  }

  /** So each receipt is undone at most once: of two undos of it, only one is ever applied. */
  lemma UndoneOnce(w: World, u: Id, steps: nat, part: set<Location>, more: seq<Action>, v: Id)
    requires Rooted(w.ledger) && MayApply(w.ledger, u) && u in w.bodies && w.ledger[u].mode == Undo && w.ledger[u].parent.Some?
    requires Carried(w, u, Finished, steps, part).Some?
    ensures var n := RunFrom(Step(w, Apply(u, Finished, steps, part)), more);
      v in n.ledger && n.ledger[v].mode == Undo && n.ledger[v].parent == w.ledger[u].parent ==> !MayApply(n.ledger, v)
  {
    hide *;
    PlannedOnly(w.ledger, u);
    var n, x := Step(w, Apply(u, Finished, steps, part)), w.ledger[u].parent.value;
    Revival(w, u, steps, part);
    UndoneStays(n, more, x);
    var later := RunFrom(n, more).ledger;
    if v in later && later[v].mode == Undo && later[v].parent == Some(x) {
      UndoneIsClosed(later, v, x);
    }
  }

  lemma UndoneIsClosed(m: Ledger, v: Id, x: Id)
    requires v in m && m[v].parent == Some(x) && x in m && m[x].status == Undone
    ensures !MayApply(m, v)
  {
  }

  // ---------------------------------------------------------------- bringing a predecessor back

  lemma SameContentOfSame(a: Image, b: Image)
    ensures SameImage(a, b) ==> SameContent(a, b)
  {
  }

  /** A receipt whose recorded content is there holds once its new identities are recorded. */
  lemma BackHolds(tree: Tree, docs: M.Docs, b: Body)
    requires ContentBack(tree, docs, b)
    ensures Holds(tree, docs, Rerecorded(tree, b))
  {
    if b.Files? {
      forall i | 0 <= i < b.completed
        ensures SameThere(tree, b.effects[i])
      {
      }
      hide Snapshot, RootsHold;
    }
  }

  /** What `updateRelationship` makes of an applied undo of `x`. */
  lemma SettledUndoes(w: World, id: Id, x: Id)
    requires id in w.ledger && x in w.ledger && id != x && w.ledger[id].mode == Undo && w.ledger[id].parent == Some(x)
    requires w.ledger[x].parent.Some? ==>
              w.ledger[x].parent.value in w.ledger && w.ledger[x].parent.value != x && w.ledger[x].parent.value != id
    ensures var n := Settled(w, id);
      && n.disk == w.disk && n.docs == w.docs && n.ledger.Keys == w.ledger.Keys && n.bodies.Keys == w.bodies.Keys
      && n.ledger[x].status == Undone
      && (forall p :: w.ledger[x].parent == Some(p) && w.ledger[p].status == Superseded && p in w.bodies ==>
            if ContentBack(w.disk.tree, w.docs, w.bodies[p]) then n.ledger[p].status == Applied
                && n.bodies[p] == Rerecorded(w.disk.tree, w.bodies[p])
            else n.ledger[p] == w.ledger[p])
      && (forall q :: q in w.ledger && q != x && (w.ledger[x].parent != Some(q) || w.ledger[q].status != Superseded) ==>
            n.ledger[q] == w.ledger[q])
  {
    hide ContentBack, Rerecorded;
  }

  lemma RootedUndo(m: Ledger, id: Id)
    requires Rooted(m) && id in m && m[id].mode == Undo && m[id].parent.Some?
    ensures var x := m[id].parent.value;
      x in m && x != id && (m[x].parent.Some? ==> m[x].parent.value in m && m[x].parent.value != x)
  {
    var x := m[id].parent.value;
    assert RootedAt(m, id) && RootedAt(m, x);
    if m[x].parent.Some? {
      assert RootedAt(m, m[x].parent.value);
    }
  }

  /** A planned undo is nobody's parent. */
  lemma PlannedIsLast(m: Ledger, id: Id, x: Id)
    requires Rooted(m) && id in m && x in m && m[id].status == Status.Planned
    ensures m[x].parent != Some(id)
  {
    assert RootedAt(m, x);
  }

  lemma PlannedOnly(m: Ledger, id: Id)
    requires MayApply(m, id)
    ensures id in m && m[id].status == Status.Planned
  {
  }

  /**
   The application of an undo: its receipt is undone, the superseded predecessor is applied again exactly when its
   recorded content is on the disk at that moment, and then its receipt holds; no other receipt changes.
   */
  lemma Revival(w: World, id: Id, steps: nat, part: set<Location>)
    requires Rooted(w.ledger) && MayApply(w.ledger, id) && id in w.bodies && w.ledger[id].mode == Undo && w.ledger[id].parent.Some?
    requires Carried(w, id, Finished, steps, part).Some?
    ensures var n, x := Step(w, Apply(id, Finished, steps, part)), w.ledger[id].parent.value;
      && x in n.ledger && n.ledger[x].status == Undone
      && (forall p :: w.ledger[x].parent == Some(p) && w.ledger[p].status == Superseded && p in w.bodies ==>
            && p in n.bodies && (n.ledger[p].status == Applied <==> ContentBack(n.disk.tree, n.docs, w.bodies[p]))
            && (n.ledger[p].status == Applied ==> Holds(n.disk.tree, n.docs, n.bodies[p])))
      && (forall q :: q in w.ledger && q != id && q != x && (w.ledger[x].parent != Some(q) || w.ledger[q].status != Superseded) ==>
            q in n.ledger && n.ledger[q] == w.ledger[q])
  {
    hide *;
    PlannedOnly(w.ledger, id);
    var x := w.ledger[id].parent.value;
    RootedUndo(w.ledger, id);
    PlannedIsLast(w.ledger, id, x);
    CarriedKeeps(w, id, Finished, steps, part);
    ApplyIs(w, id, Finished, steps, part);
    var v := Carried(w, id, Finished, steps, part).value;
    var d := v.(ledger := v.ledger[id := v.ledger[id].(status := Applied)]);
    SettledUndoes(d, id, x);
    if w.ledger[x].parent.Some? {
      var p := w.ledger[x].parent.value;
      if p in w.bodies && ContentBack(d.disk.tree, d.docs, w.bodies[p]) {
        BackHolds(d.disk.tree, d.docs, w.bodies[p]);
      }
    }
  }

  // ---------------------------------------------------------------- what every run keeps

  /** What every run keeps: each receipt has its record, the two agree on whether it changed something, and the disk is a tree. */
  ghost predicate Sound(w: World) {
    Rooted(w.ledger) && Coherent(w) && Closed(w.disk.tree)
  }

  predicate Coherent(w: World) {
    w.bodies.Keys == w.ledger.Keys && forall i <- w.ledger :: w.ledger[i].effectful <==> Effectful(w.bodies[i])
  }

  lemma AddedCoherent(w: World, id: Id, mode: Mode, parent: Option<Id>, b: Body)
    requires Coherent(w)
    ensures Coherent(Added(w, id, mode, parent, b)) && Added(w, id, mode, parent, b).disk == w.disk
  {
    hide Effectful;
  }

  lemma RerecordedKind(tree: Tree, b: Body)
    ensures Effectful(Rerecorded(tree, b)) <==> Effectful(b)
  {
  }

  lemma RelatedKinds(m: Ledger, id: Id, content: bool)
    requires id in m
    ensures Related(m, id, content).Keys == m.Keys
    ensures forall i :: i in m ==> (Related(m, id, content)[i].effectful <==> m[i].effectful)
  {
  }

  lemma SettledCoherent(w: World, id: Id)
    requires Coherent(w) && id in w.ledger
    ensures Coherent(Settled(w, id)) && Settled(w, id).disk == w.disk
  {
    RelatedKinds(w.ledger, id, Back(w, id));
    if BackId(w.ledger, id).Some? && Back(w, id) {
      RerecordedKind(w.disk.tree, w.bodies[BackId(w.ledger, id).value]);
    }
    hide Related, ContentBack, Rerecorded, Effectful;
  }

  lemma CarriedCoherent(w: World, id: Id, ending: Ending, steps: nat, part: set<Location>)
    requires Coherent(w) && Closed(w.disk.tree) && id in w.bodies && Carried(w, id, ending, steps, part).Some?
    ensures Coherent(Carried(w, id, ending, steps, part).value) && Closed(Carried(w, id, ending, steps, part).value.disk.tree)
  {
    var b := w.bodies[id];
    if b.Files? {
      var k := if ending == Finished then |b.effects| else steps;
      hide RunTo, PublishEffect, FitsAt, Snapshot, Closed;
      if Carries(w.disk, b.effects, k) {
        RunToClosed(w.disk, b.effects, k);
      }
    } else {
      hide Closed, Carries, RunTo;
    }
  }

  lemma AddedIfCoherent(w: World, id: Id, mode: Mode, parent: Option<Id>, b: Option<Body>)
    requires Coherent(w)
    ensures Coherent(AddedIf(w, id, mode, parent, b)) && AddedIf(w, id, mode, parent, b).disk == w.disk
  {
    if b.Some? {
      AddedCoherent(w, id, mode, parent, b.value);
    }
    hide Coherent;
  }

  lemma PlanCoherent(w: World, a: Action)
    requires !a.Apply? && Coherent(w) && Closed(w.disk.tree)
    ensures Coherent(Step(w, a)) && Closed(Step(w, a).disk.tree)
  {
    hide Coherent, Closed, Drawn, DrawnBack, MayUndo, OwnerFits, StanzaPlan, UndoPlan, Added, Owner, Holds;
    match a
    case PlanFiles(id, mode, b) => AddedIfCoherent(w, id, mode, None, Some(b));
    case PlanStanzas(id, mode, q, owner) =>
      if OwnerFits(w, mode, q, owner) && mode in {Copy, Mirror, Move} && id !in w.ledger {
        OwnerIsKnown(w, mode, q, owner);
        assert Step(w, a) == AddedIf(w, id, mode, owner, StanzaPlan(w, q, mode, owner));
        AddedIfCoherent(w, id, mode, owner, StanzaPlan(w, q, mode, owner));
      }
    case RefreshFiles(of, id, b) =>
      if of in w.ledger {
        AddedIfCoherent(w, id, Mirror, Owner(w.ledger, of, HISTORY), Some(b));
      }
    case RefreshStanzas(of, id) =>
      if MayRefresh(w, of, id) && w.bodies[of].Stanzas? {
        var owner := Owner(w.ledger, of, HISTORY);
        AddedIfCoherent(w, id, Mirror, owner, StanzaPlan(w, w.bodies[of].request, Mirror, owner));
      }
    case UndoFiles(of, id, b) => AddedIfCoherent(w, id, Undo, Some(of), Some(b));
    case UndoStanzas(of, id) =>
      if of in w.bodies && w.bodies[of].Stanzas? {
        AddedIfCoherent(w, id, Undo, Some(of), UndoPlan(w.docs, w.bodies[of]));
      }
    case Outside(disk, docs) => OutsideCoherent(w, disk, docs);
  }

  lemma OutsideCoherent(w: World, disk: Disk, docs: M.Docs)
    ensures Coherent(w.(disk := disk, docs := docs)) <==> Coherent(w)
  {
    hide Effectful;
  }

  lemma OwnerIsKnown(w: World, mode: Mode, q: Request, owner: Option<Id>)
    requires OwnerFits(w, mode, q, owner)
    ensures owner.Some? ==> owner.value in w.ledger && owner.value in w.bodies
  {
    hide Holds;
  }

  lemma StatusCoherent(w: World, id: Id, status: Status)
    requires Coherent(w) && id in w.ledger
    ensures Coherent(w.(ledger := w.ledger[id := w.ledger[id].(status := status)]))
  {
    hide Effectful;
  }

  lemma ApplyCoherent(w: World, id: Id, ending: Ending, steps: nat, part: set<Location>)
    requires Coherent(w) && Closed(w.disk.tree)
    ensures Coherent(Step(w, Apply(id, ending, steps, part))) && Closed(Step(w, Apply(id, ending, steps, part)).disk.tree)
  {
    hide *;
    ApplyIs(w, id, ending, steps, part);
    if MayApply(w.ledger, id) && id in w.bodies && ending != Stale && Carried(w, id, ending, steps, part).Some? {
      var v := Carried(w, id, ending, steps, part).value;
      CarriedCoherent(w, id, ending, steps, part);
      var status := if ending == Finished then Applied else if ending == PartWay then Partial else InterruptedUnknown;
      StatusCoherent(v, id, status);
      if ending == Finished {
        SettledCoherent(v.(ledger := v.ledger[id := v.ledger[id].(status := Applied)]), id);
      }
    }
  }

  lemma SoundIs(w: World)
    ensures Sound(w) <==> Rooted(w.ledger) && Coherent(w) && Closed(w.disk.tree)
  {
    hide Rooted, Coherent, Closed;
  }

  lemma StepSound(w: World, a: Action)
    requires Sound(w)
    ensures Sound(Step(w, a))
  {
    hide *;
    SoundIs(w);
    SoundIs(Step(w, a));
    RootedStep(w, a);
    match a
    case Apply(id, ending, steps, part) => ApplyCoherent(w, id, ending, steps, part);
    case _ => PlanCoherent(w, a);
  }

  lemma {:induction false} RunSound(w: World, run: seq<Action>)
    requires Sound(w)
    ensures Sound(RunFrom(w, run))
    decreases |run|
  {
    hide Step, Sound;
    if run != [] {
      StepSound(w, run[0]);
      RunSound(Step(w, run[0]), run[1..]);
    }
  }
}
