/**
 Stanza ownership (internal/agentinterop/mcp_ownership.go:35-57 and 101-129, with the edits recorded by
 planMCP, mcp.go:255-312): an MCP receipt owns the stanzas it edited and nothing else in their files.
 */
module McpOwnership {
  import opened Options
  import opened FileTree
  import opened McpValues
  import opened Mcp

  type Stanza = Fields

  /** Which table of the file, and which name in it. */
  type Slot = (string, string)

  /** A configuration file by its entries; an absent file has none. */
  type Doc = map<Slot, Stanza>

  type Docs = map<Location, Doc>

  datatype Edit = Edit(loc: Location, agent: Agent, name: string, before: Option<Stanza>, after: Option<Stanza>)

  function Section(agent: Agent): string {
    match agent
    case Codex => "mcp_servers"
    case OpenCode => "mcp"
    case _ => "mcpServers"
  }

  function SlotOf(agent: Agent, name: string): Slot {
    (Section(agent), name)
  }

  function DocAt(docs: Docs, l: Location): Doc {
    if l in docs then docs[l] else map[]
  }

  function StanzaAt(docs: Docs, l: Location, s: Slot): Option<Stanza> {
    if s in DocAt(docs, l) then Some(DocAt(docs, l)[s]) else None
  }

  /** What a saved receipt holds of a stanza: an empty one is not written. */
  function Kept(f: Option<Stanza>): Option<Stanza> {
    if f == Some(map[]) then None else f
  }

  function Saved(e: Edit): Edit {
    e.(before := Kept(e.before), after := Kept(e.after))
  }

  /** `patchMCP`; None when a JSON entry to remove is not there. */
  function Patch(d: Doc, agent: Agent, name: string, fields: Option<Stanza>): Option<Doc> {
    var s := SlotOf(agent, name);
    match fields
    case Some(f) => Some(d[s := f])
    case None => if s !in d && agent != Codex then None else Some(d - {s})
  }

  /** `verifyReceipt`: every edited stanza is still what the edit left. */
  predicate Holds(docs: Docs, edits: seq<Edit>) {
    forall e <- edits :: StanzaAt(docs, e.loc, SlotOf(e.agent, e.name)) == e.after
  }

  predicate Names(e: Edit, l: Location, s: Slot) {
    e.loc == l && SlotOf(e.agent, e.name) == s
  }

  predicate Unique(edits: seq<Edit>) {
    forall i, j :: 0 <= i < j < |edits| ==> !Names(edits[j], edits[i].loc, SlotOf(edits[i].agent, edits[i].name))
  }

  /** The stanza an undo leaves: what the first edit naming it found there, or what is there now. */
  function Undone(docs: Docs, edits: seq<Edit>, l: Location, s: Slot): Option<Stanza> {
    if edits == [] then StanzaAt(docs, l, s)
    else if Names(edits[0], l, s) then edits[0].before
    else Undone(docs, edits[1..], l, s)
  }

  function Swapped(e: Edit): Edit {
    e.(before := e.after, after := e.before)
  }

  function Reversed(edits: seq<Edit>): seq<Edit> {
    if edits == [] then [] else Reversed(edits[1..]) + [Swapped(edits[0])]
  }

  /** The files as the undo would write them: the patched ones over the present ones. */
  function Over(docs: Docs, patched: Docs): Docs {
    docs + patched
  }

  ghost predicate UndoneTo(docs: Docs, edits: seq<Edit>, after: Docs) {
    forall l, s :: StanzaAt(after, l, s) == Undone(docs, edits, l, s)
  }

  lemma StepBack(docs: Docs, edits: seq<Edit>, i: nat, patched: Docs, d: Doc, p: Doc)
    requires i < |edits| && UndoneTo(docs, edits[i + 1..], Over(docs, patched))
    requires d == DocAt(Over(docs, patched), edits[i].loc) && Patch(d, edits[i].agent, edits[i].name, edits[i].before) == Some(p)
    ensures UndoneTo(docs, edits[i..], Over(docs, patched[edits[i].loc := p]))
  {
    var e := edits[i];
    var now, then_ := Over(docs, patched), Over(docs, patched[e.loc := p]);
    assert edits[i..][0] == e && edits[i..][1..] == edits[i + 1..];
    forall l, s
      ensures StanzaAt(then_, l, s) == Undone(docs, edits[i..], l, s)
    {
      assert StanzaAt(now, l, s) == Undone(docs, edits[i + 1..], l, s);
    }
  }

  lemma ReversedMore(edits: seq<Edit>, i: nat)
    requires i < |edits|
    ensures Reversed(edits[i..]) == Reversed(edits[i + 1..]) + [Swapped(edits[i])]
  {
    assert edits[i..][0] == edits[i] && edits[i..][1..] == edits[i + 1..];
  }

  /** Before a patch, a stanza that an edit still to be undone names is as it was, if no later edit names it. */
  lemma {:induction false} NotYet(docs: Docs, edits: seq<Edit>, l: Location, s: Slot)
    requires forall e <- edits :: !Names(e, l, s)
    ensures Undone(docs, edits, l, s) == StanzaAt(docs, l, s)
  {
    if edits != [] {
      NotYet(docs, edits[1..], l, s);
    }
  }

  /** `planMCPUndo`: the reverse edits, gathered by file, each file written once. */
  method PlanUndo(docs: Docs, edits: seq<Edit>) returns (r: Option<(Docs, seq<Edit>)>)
    ensures r.Some? ==> UndoneTo(docs, edits, r.value.0) && r.value.1 == Reversed(edits)
    ensures r.Some? ==> forall l :: l !in r.value.0 <==> l !in docs && forall e <- edits :: e.loc != l
    ensures Unique(edits) && Holds(docs, edits) && (forall e <- edits :: e.before.Some? || e.after.Some?) ==> r.Some?
  {
    hide *;
    var dataByPath: Docs := map[];
    var order: seq<Location> := [];
    var undone: seq<Edit> := [];
    var i: nat := |edits|;
    StartBack(docs, edits);
    while i > 0
      invariant i <= |edits|
      invariant UndoneTo(docs, edits[i..], Over(docs, dataByPath))
      invariant undone == Reversed(edits[i..])
      invariant Gathered(edits, i, dataByPath, order)
    {
      i := i - 1;
      var e := edits[i];
      var data := if e.loc in dataByPath then dataByPath[e.loc] else DocAt(docs, e.loc);
      DataIs(docs, dataByPath, e.loc);
      ghost var before := order;
      if e.loc !in dataByPath {
        order := order + [e.loc];
      }
      var patched := Patch(data, e.agent, e.name, e.before);
      if patched == None {
        RefusalExplained(docs, edits, i, dataByPath, data);
        return None;
      }
      StepBack(docs, edits, i, dataByPath, data, patched.value);
      ReversedMore(edits, i);
      GatheredMore(edits, i, dataByPath, patched.value, before);
      dataByPath := dataByPath[e.loc := patched.value];
      undone := undone + [Swapped(e)];
    }
    assert edits[0..] == edits;
    GatheredAll(docs, edits, dataByPath, order);
    var written := WriteAll(docs, dataByPath, order);
    return Some((written, undone));
  }

  /** `order` lists the files of the edits from position `i` on, and those are the files gathered. */
  ghost predicate Gathered(edits: seq<Edit>, i: nat, dataByPath: Docs, order: seq<Location>)
    requires i <= |edits|
  {
    && (forall l :: l in dataByPath <==> l in order)
    && (forall l :: l in order ==> exists j :: i <= j < |edits| && edits[j].loc == l)
    && (forall j :: i <= j < |edits| ==> edits[j].loc in order)
  }

  lemma GatheredMore(edits: seq<Edit>, i: nat, dataByPath: Docs, p: Doc, order: seq<Location>)
    requires i < |edits| && Gathered(edits, i + 1, dataByPath, order)
    ensures Gathered(edits, i, dataByPath[edits[i].loc := p], if edits[i].loc in dataByPath then order else order + [edits[i].loc])
  {
  }

  lemma GatheredAll(docs: Docs, edits: seq<Edit>, dataByPath: Docs, order: seq<Location>)
    requires Gathered(edits, 0, dataByPath, order)
    ensures forall l :: l in dataByPath <==> l in order
    ensures forall l :: l !in Over(docs, dataByPath) <==> l !in docs && forall e <- edits :: e.loc != l
  {
    forall l
      ensures l in order <==> exists e <- edits :: e.loc == l
    {
    }
  }

  lemma DataIs(docs: Docs, patched: Docs, l: Location)
    ensures DocAt(Over(docs, patched), l) == if l in patched then patched[l] else DocAt(docs, l)
  {
  }

  lemma StartBack(docs: Docs, edits: seq<Edit>)
    ensures UndoneTo(docs, edits[|edits|..], Over(docs, map[])) && Reversed(edits[|edits|..]) == [] && Gathered(edits, |edits|, map[], [])
  {
    assert docs + map[] == docs;
  }

  /** A patch is refused only when an edit names an entry that is not there and puts none back. */
  lemma RefusalExplained(docs: Docs, edits: seq<Edit>, i: nat, patched: Docs, d: Doc)
    requires i < |edits| && UndoneTo(docs, edits[i + 1..], Over(docs, patched))
    requires d == DocAt(Over(docs, patched), edits[i].loc) && Patch(d, edits[i].agent, edits[i].name, edits[i].before) == None
    ensures !(Unique(edits) && Holds(docs, edits) && (forall e <- edits :: e.before.Some? || e.after.Some?))
  {
    var e := edits[i];
    var s := SlotOf(e.agent, e.name);
    assert StanzaAt(Over(docs, patched), e.loc, s) == Undone(docs, edits[i + 1..], e.loc, s) == None;
    if Unique(edits) && Holds(docs, edits) {
      forall x | x in edits[i + 1..]
        ensures !Names(x, e.loc, s)
      {
        var j :| 0 <= j < |edits[i + 1..]| && edits[i + 1..][j] == x;
        assert edits[i + 1 + j] == x;
      }
      NotYet(docs, edits[i + 1..], e.loc, s);
      assert e in edits;
    }
  }

  /** Each gathered file is written once. */
  method WriteAll(docs: Docs, dataByPath: Docs, order: seq<Location>) returns (written: Docs)
    requires forall l :: l in dataByPath <==> l in order
    ensures written == Over(docs, dataByPath)
  {
    written := docs;
    for i := 0 to |order|
      invariant written.Keys == docs.Keys + (set l | l in order[..i])
      invariant forall l <- written :: written[l] == if l in order[..i] then dataByPath[l] else docs[l]
    {
      assert order[..i + 1] == order[..i] + [order[i]];
      written := written[order[i] := dataByPath[order[i]]];
    }
    assert order[..|order|] == order;
    assert written == Over(docs, dataByPath);
  }

  // What an undo means.

  /** The first edit naming a stanza decides it. */
  lemma {:induction false} FirstDecides(docs: Docs, edits: seq<Edit>, i: nat)
    requires i < |edits| && Unique(edits)
    ensures Undone(docs, edits, edits[i].loc, SlotOf(edits[i].agent, edits[i].name)) == edits[i].before
  {
    if i > 0 {
      assert !Names(edits[i], edits[0].loc, SlotOf(edits[0].agent, edits[0].name));
      FirstDecides(docs, edits[1..], i - 1);
    }
  }

  lemma {:induction false} ReversedAt(edits: seq<Edit>, j: nat)
    requires j < |edits|
    ensures |Reversed(edits)| == |edits| && Reversed(edits)[j] == Swapped(edits[|edits| - 1 - j])
  {
    if |edits| > 1 {
      ReversedAt(edits[1..], if j < |edits| - 1 then j else 0);
    }
  }

  lemma ReversedUnique(edits: seq<Edit>)
    requires Unique(edits)
    ensures Unique(Reversed(edits))
  {
    var rs := Reversed(edits);
    if edits != [] {
      ReversedAt(edits, 0);
    }
    forall i, j | 0 <= i < j < |rs|
      ensures !Names(rs[j], rs[i].loc, SlotOf(rs[i].agent, rs[i].name))
    {
      ReversedAt(edits, i);
      ReversedAt(edits, j);
      assert !Names(edits[|edits| - 1 - i], edits[|edits| - 1 - j].loc, SlotOf(edits[|edits| - 1 - j].agent, edits[|edits| - 1 - j].name));
    }
  }

  /** After an undo its own receipt holds. */
  lemma UndoHolds(docs: Docs, edits: seq<Edit>, after: Docs)
    requires Unique(edits) && UndoneTo(docs, edits, after)
    ensures Holds(after, Reversed(edits))
  {
    forall e | e in Reversed(edits)
      ensures StanzaAt(after, e.loc, SlotOf(e.agent, e.name)) == e.after
    {
      var j :| 0 <= j < |Reversed(edits)| && Reversed(edits)[j] == e;
      if edits != [] {
        ReversedAt(edits, 0);
      }
      ReversedAt(edits, j);
      FirstDecides(docs, edits, |edits| - 1 - j);
    }
  }

  /** Undoing an undo brings every stanza of every file back to what it was, when the receipt held. */
  lemma UndoOfUndo(docs: Docs, edits: seq<Edit>, after: Docs, again: Docs)
    requires Unique(edits) && Holds(docs, edits) && UndoneTo(docs, edits, after) && UndoneTo(after, Reversed(edits), again)
    ensures forall l, s :: StanzaAt(again, l, s) == StanzaAt(docs, l, s)
  {
    var rs := Reversed(edits);
    ReversedUnique(edits);
    if edits != [] {
      ReversedAt(edits, 0);
    }
    forall l, s
      ensures StanzaAt(again, l, s) == StanzaAt(docs, l, s)
    {
      if i :| 0 <= i < |edits| && Names(edits[i], l, s) {
        ReversedAt(edits, |edits| - 1 - i);
        FirstDecides(after, rs, |edits| - 1 - i);
        assert edits[i] in edits;
      } else {
        forall e | e in rs
          ensures !Names(e, l, s)
        {
          var j :| 0 <= j < |rs| && rs[j] == e;
          ReversedAt(edits, j);
        }
        NotYet(after, rs, l, s);
        NotYet(docs, edits, l, s);
      }
    }
  }

  // What a plan records.

  /** A configuration transfer: `rendered` is the destination's form of the source stanza. */
  datatype Transfer = Transfer(moving: bool, from: Location, fromAgent: Agent, name: string,
                               to: Location, toAgent: Agent, target: string, rendered: Stanza, owned: bool, claims: bool)

  function FromSlot(t: Transfer): Slot { SlotOf(t.fromAgent, t.name) }
  function ToSlot(t: Transfer): Slot { SlotOf(t.toAgent, t.target) }

  /** The edits and the files a transfer plans; None for a conflict or a missing source. */
  function Planned(docs: Docs, t: Transfer): Option<(Docs, seq<Edit>)> {
    var fields, existing := StanzaAt(docs, t.from, FromSlot(t)), StanzaAt(docs, t.to, ToSlot(t));
    if fields == None then None
    else if t.from == t.to && t.name == t.target then Some((docs, []))
    else if existing.Some? && existing.value != t.rendered && !t.owned then None
    else
      var there := docs[t.to := DocAt(docs, t.to)[ToSlot(t) := t.rendered]];
      var done := if t.moving then there[t.from := DocAt(there, t.from) - {FromSlot(t)}] else there;
      var changed := DocAt(done, t.to) != DocAt(docs, t.to);
      var landing := if changed || t.moving || t.claims then [Edit(t.to, t.toAgent, t.target, existing, Some(t.rendered))] else [];
      var leaving := if t.moving then [Edit(t.from, t.fromAgent, t.name, fields, None)] else [];
      Some((done, landing + leaving))
  }

  /** Nothing is edited but the one or two stanzas recorded, and right afterwards the receipt holds. */
  lemma PlannedIsOwned(docs: Docs, t: Transfer)
    requires Planned(docs, t).Some?
    ensures var (done, edits) := Planned(docs, t).value;
            && Unique(edits) && Holds(done, edits)
            && (forall e <- edits :: e.before == StanzaAt(docs, e.loc, SlotOf(e.agent, e.name)) && (e.before.Some? || e.after.Some?))
            && (forall l, s :: (forall e <- edits :: !Names(e, l, s)) ==> StanzaAt(done, l, s) == StanzaAt(docs, l, s))
  {
    var (done, edits) := Planned(docs, t).value;
    forall l, s | forall e <- edits :: !Names(e, l, s)
      ensures StanzaAt(done, l, s) == StanzaAt(docs, l, s)
    {
      assert |edits| > 0 ==> edits[0] in edits;
      assert |edits| > 1 ==> edits[1] in edits;
    }
  }

  /** A transfer, then any edits by others that leave its stanzas alone, then its undo: every stanza the
      transfer edited is what it was before it (an empty one is gone), and every other stanza of every
      file is what the others made of it. */
  lemma TransferUndone(docs: Docs, t: Transfer, later: Docs, after: Docs)
    requires Planned(docs, t).Some?
    requires Holds(later, Planned(docs, t).value.1) && UndoneTo(later, SavedAll(Planned(docs, t).value.1), after)
    ensures var edits := Planned(docs, t).value.1;
            && (forall e <- edits :: StanzaAt(after, e.loc,
                  SlotOf(e.agent, e.name)) == Kept(StanzaAt(docs, e.loc, SlotOf(e.agent, e.name))))
            && (forall l, s :: (forall e <- edits :: !Names(e, l, s)) ==> StanzaAt(after, l, s) == StanzaAt(later, l, s))
  {
    var edits := Planned(docs, t).value.1;
    var saved := SavedAll(edits);
    PlannedIsOwned(docs, t);
    hide Planned, StanzaAt, Holds;
    SavedNames(edits);
    forall e | e in edits
      ensures StanzaAt(after, e.loc, SlotOf(e.agent, e.name)) == Kept(StanzaAt(docs, e.loc, SlotOf(e.agent, e.name)))
    {
      var i :| 0 <= i < |edits| && edits[i] == e;
      FirstDecides(later, saved, i);
    }
    forall l, s | forall e <- edits :: !Names(e, l, s)
      ensures StanzaAt(after, l, s) == StanzaAt(later, l, s)
    {
      forall x | x in saved
        ensures !Names(x, l, s)
      {
        var i :| 0 <= i < |saved| && saved[i] == x;
        assert edits[i] in edits;
      }
      NotYet(later, saved, l, s);
    }
  }

  function SavedAll(edits: seq<Edit>): seq<Edit> {
    seq(|edits|, i requires 0 <= i < |edits| => Saved(edits[i]))
  }

  lemma SavedNames(edits: seq<Edit>)
    requires Unique(edits)
    ensures Unique(SavedAll(edits))
  {
    forall i, j | 0 <= i < j < |edits|
      ensures !Names(SavedAll(edits)[j], SavedAll(edits)[i].loc, SlotOf(SavedAll(edits)[i].agent, SavedAll(edits)[i].name))
    {
      assert !Names(edits[j], edits[i].loc, SlotOf(edits[i].agent, edits[i].name));
    }
  }
}
