/**
 The range edit of one server's tables (internal/agentinterop/toml.go:43-172), on the lines of a TOML v1.0.0
 document (section "Table"): each line carries its own text, and a value may span several physical lines.
 */
module Toml {
  import opened Options

  datatype Line =
    | Blank(text: string)
    | Comment(text: string)
    | Header(keys: seq<string>, isArray: bool, text: string)
    | Pair(keys: seq<string>, value: string, text: string)

  /** What a document says, in order: a table is opened, a full key gets a value. */
  datatype Event = Open(path: seq<string>, isArray: bool) | Set(path: seq<string>, value: string)

  const SERVERS := "mcp_servers"

  predicate Gap(l: Line) { l.Blank? || l.Comment? }

  function Step(context: seq<string>, l: Line): seq<string> {
    if l.Header? then l.keys else context
  }

  /** The table that is open after the lines. */
  function Last(context: seq<string>, ls: seq<Line>): seq<string>
    decreases |ls|
  {
    if ls == [] then context else Last(Step(context, ls[0]), ls[1..])
  }

  function EventsOf(context: seq<string>, l: Line): seq<Event> {
    match l
    case Header(keys, isArray, _) => [Open(keys, isArray)]
    case Pair(keys, value, _) => [Set(context + keys, value)]
    case _ => []
  }

  function Read(context: seq<string>, ls: seq<Line>): seq<Event>
    decreases |ls|
  {
    if ls == [] then [] else EventsOf(context, ls[0]) + Read(Step(context, ls[0]), ls[1..])
  }

  function Meaning(ls: seq<Line>): seq<Event> { Read([], ls) }

  /** The event concerns the server `name`. */
  predicate About(e: Event, name: string) {
    [SERVERS, name] <= e.path
  }

  function Only(es: seq<Event>, name: string): seq<Event> {
    if es == [] then [] else (if About(es[0], name) then [es[0]] else []) + Only(es[1..], name)
  }

  function Without(es: seq<Event>, name: string): seq<Event> {
    if es == [] then [] else (if About(es[0], name) then [] else [es[0]]) + Without(es[1..], name)
  }

  function Text(ls: seq<Line>): string {
    if ls == [] then "" else ls[0].text + Text(ls[1..])
  }

  lemma {:induction false} LastSplit(context: seq<string>, a: seq<Line>, b: seq<Line>)
    ensures Last(context, a + b) == Last(Last(context, a), b)
    decreases |a|
  {
    if a == [] {
      assert a + b == b;
    } else {
      assert (a + b)[1..] == a[1..] + b;
      LastSplit(Step(context, a[0]), a[1..], b);
    }
  }

  lemma {:induction false} ReadSplit(context: seq<string>, a: seq<Line>, b: seq<Line>)
    ensures Read(context, a + b) == Read(context, a) + Read(Last(context, a), b)
    decreases |a|
  {
    if a == [] {
      assert a + b == b;
    } else {
      assert (a + b)[1..] == a[1..] + b;
      ReadSplit(Step(context, a[0]), a[1..], b);
      var next := Step(context, a[0]);
      hide EventsOf, Step;
      assert EventsOf(context, a[0]) + (Read(next, a[1..]) + Read(Last(next, a[1..]), b)) ==
             (EventsOf(context, a[0]) + Read(next, a[1..])) + Read(Last(next, a[1..]), b);
    }
  }

  lemma {:induction false} FilterSplit(a: seq<Event>, b: seq<Event>, name: string)
    ensures Only(a + b, name) == Only(a, name) + Only(b, name)
    ensures Without(a + b, name) == Without(a, name) + Without(b, name)
  {
    hide About;
    if a == [] {
      assert a + b == b;
    } else {
      assert (a + b)[1..] == a[1..] + b && (a + b)[0] == a[0];
      FilterSplit(a[1..], b, name);
      if About(a[0], name) {
        assert Only(a, name) == [a[0]] + Only(a[1..], name);
        assert Without(a, name) == Without(a[1..], name);
      } else {
        assert Only(a, name) == Only(a[1..], name);
        assert Without(a, name) == [a[0]] + Without(a[1..], name);
      }
    }
  }

  lemma {:induction false} TextSplit(a: seq<Line>, b: seq<Line>)
    ensures Text(a + b) == Text(a) + Text(b)
  {
    if a == [] {
      assert a + b == b;
    } else {
      assert (a + b)[1..] == a[1..] + b;
      TextSplit(a[1..], b);
    }
  }

  /** Reading `ls` does not depend on the table that was open before it. */
  predicate Fresh(ls: seq<Line>) {
    ls == [] || ls[0].Header? || (Gap(ls[0]) && Fresh(ls[1..]))
  }

  lemma {:induction false} FreshReads(a: seq<string>, b: seq<string>, ls: seq<Line>)
    requires Fresh(ls)
    ensures Read(a, ls) == Read(b, ls)
    decreases |ls|
  {
    if ls != [] && Gap(ls[0]) {
      FreshReads(a, b, ls[1..]);
    }
  }

  /** A stretch of lines read in a context that is not the server's, with no header of the server's. */
  lemma {:induction false} NothingAbout(context: seq<string>, ls: seq<Line>, name: string)
    requires forall i :: 0 <= i < |ls| ==> !Selects(ls[i], name)
    requires forall i :: 0 <= i < |ls| && ls[i].Pair? ==> !([SERVERS, name] <= Last(context, ls[..i]) + ls[i].keys)
    ensures Only(Read(context, ls), name) == [] && Without(Read(context, ls), name) == Read(context, ls)
    decreases |ls|
  {
    if ls != [] {
      var next := Step(context, ls[0]);
      forall i | 0 <= i < |ls[1..]| && ls[1..][i].Pair?
        ensures !([SERVERS, name] <= Last(next, ls[1..][..i]) + ls[1..][i].keys)
      {
        assert ls[..i + 1][1..] == ls[1..][..i] && ls[..i + 1][0] == ls[0];
        assert ls[1..][i] == ls[i + 1];
      }
      NothingAbout(next, ls[1..], name);
      assert ls[..0] == [];
      FilterSplit(EventsOf(context, ls[0]), Read(next, ls[1..]), name);
    }
  }

  /** A header of the selected server or of one of its sub-tables. */
  predicate Selects(l: Line, name: string) {
    l.Header? && [SERVERS, name] <= l.keys
  }

  /** A selected table with its pairs is about the server only. */
  lemma {:induction false} AllAbout(context: seq<string>, ls: seq<Line>, name: string)
    requires [SERVERS, name] <= context
    requires forall i :: 0 <= i < |ls| && ls[i].Header? ==> Selects(ls[i], name)
    ensures Only(Read(context, ls), name) == Read(context, ls) && Without(Read(context, ls), name) == []
    decreases |ls|
  {
    if ls != [] {
      var next := Step(context, ls[0]);
      AllAbout(next, ls[1..], name);
      if ls[0].Pair? {
        assert [SERVERS, name] <= context + ls[0].keys;
      }
      FilterSplit(EventsOf(context, ls[0]), Read(next, ls[1..]), name);
    }
  }

  // Finding the tables.

  datatype Block = Block(start: nat, end: nat, selected: bool)

  /** A layout the editor refuses. */
  predicate Unsupported(ls: seq<Line>, i: nat, name: string)
    requires i < |ls|
  {
    match ls[i]
    case Header(_, isArray, _) => isArray && Selects(ls[i], name)
    case Pair(keys, _, _) =>
      var context := Last([], ls[..i]);
      context + keys == [SERVERS] || (|context| < 2 && [SERVERS, name] <= context + keys)
    case _ => false
  }

  ghost predicate Supported(ls: seq<Line>, name: string) {
    forall i :: 0 <= i < |ls| ==> !Unsupported(ls, i, name)
  }

  predicate BlockOk(ls: seq<Line>, b: Block, name: string) {
    b.start < b.end <= |ls| && ls[b.start].Header? && b.selected == Selects(ls[b.start], name)
  }

  ghost predicate AllGaps(ls: seq<Line>, lo: nat, hi: nat) {
    forall i :: lo <= i < hi <= |ls| ==> Gap(ls[i])
  }

  /** Table `k` ends before the comments of the next one. */
  ghost predicate LinkedAt(ls: seq<Line>, bs: seq<Block>, k: nat)
    requires k + 1 < |bs|
  {
    bs[k].end <= bs[k + 1].start && AllGaps(ls, bs[k].end, bs[k + 1].start)
  }

  predicate StartsAt(bs: seq<Block>, i: nat) {
    exists k :: 0 <= k < |bs| && bs[k].start == i
  }

  /** The tables in order: each starts at a header, ends before the comments of the next one, and no header is missed. */
  ghost predicate Partition(ls: seq<Line>, bs: seq<Block>, name: string) {
    && (forall k :: 0 <= k < |bs| ==> BlockOk(ls, bs[k], name))
    && (forall k {:trigger LinkedAt(ls, bs, k)} :: 0 <= k < |bs| - 1 ==> LinkedAt(ls, bs, k))
    && (bs != [] ==> AllGaps(ls, bs[|bs| - 1].end, |ls|))
    && (forall i {:trigger StartsAt(bs, i)} :: 0 <= i < |ls| && ls[i].Header? ==> StartsAt(bs, i))
  }

  /** The tables of the first `i` lines, the last of them still open. */
  ghost predicate PartitionTo(ls: seq<Line>, bs: seq<Block>, name: string, i: nat, pending: int) {
    && i <= |ls| && -1 <= pending < i
    && (forall k :: 0 <= k < |bs| ==> BlockOk(ls, bs[k], name) && bs[k].start < i)
    && (forall k {:trigger LinkedAt(ls, bs, k)} :: 0 <= k < |bs| - 1 ==> LinkedAt(ls, bs, k))
    && (bs != [] ==> bs[|bs| - 1].end == |ls| && (pending >= 0 ==> pending > bs[|bs| - 1].start))
    && (forall j {:trigger StartsAt(bs, j)} :: 0 <= j < i && ls[j].Header? ==> StartsAt(bs, j))
    && (pending >= 0 ==> AllGaps(ls, pending, i))
  }

  function Close(bs: seq<Block>, end: nat): (r: seq<Block>)
    ensures |r| == |bs|
  {
    if bs == [] then [] else bs[..|bs| - 1] + [bs[|bs| - 1].(end := end)]
  }

  /** Closing the last table changes only its end. */
  lemma CloseKeeps(ls: seq<Line>, bs: seq<Block>, end: nat)
    ensures forall j {:trigger StartsAt(bs, j)} :: StartsAt(bs, j) ==> StartsAt(Close(bs, end), j)
    ensures forall k {:trigger LinkedAt(ls, bs, k)} :: 0 <= k < |bs| - 1 && LinkedAt(ls, bs, k) ==>
              LinkedAt(ls, Close(bs, end), k)
  {
    hide AllGaps;
    forall j {:trigger StartsAt(bs, j)} | StartsAt(bs, j)
      ensures StartsAt(Close(bs, end), j)
    {
      var k :| 0 <= k < |bs| && bs[k].start == j;
      assert Close(bs, end)[k].start == j;
    }
  }

  lemma AddKeeps(ls: seq<Line>, bs: seq<Block>, b: Block)
    ensures forall j {:trigger StartsAt(bs, j)} :: StartsAt(bs, j) ==> StartsAt(bs + [b], j)
    ensures StartsAt(bs + [b], b.start)
    ensures forall k {:trigger LinkedAt(ls, bs, k)} :: 0 <= k < |bs| - 1 && LinkedAt(ls, bs, k) ==>
              LinkedAt(ls, bs + [b], k)
    ensures bs != [] && bs[|bs| - 1].end <= b.start && AllGaps(ls, bs[|bs| - 1].end, b.start) ==>
              LinkedAt(ls, bs + [b], |bs| - 1)
  {
    hide AllGaps;
    forall j {:trigger StartsAt(bs, j)} | StartsAt(bs, j)
      ensures StartsAt(bs + [b], j)
    {
      var k :| 0 <= k < |bs| && bs[k].start == j;
      assert (bs + [b])[k].start == j;
    }
    assert (bs + [b])[|bs|].start == b.start;
  }

  lemma HeaderMore(ls: seq<Line>, bs: seq<Block>, name: string, i: nat, pending: int)
    requires PartitionTo(ls, bs, name, i, pending) && i < |ls| && ls[i].Header?
    ensures PartitionTo(ls, Close(bs, if pending >= 0 then pending else i) + [Block(i, |ls|, Selects(ls[i], name))], name, i + 1, -1)
  {
    var closed := Close(bs, if pending >= 0 then pending else i);
    var b := Block(i, |ls|, Selects(ls[i], name));
    CloseKeeps(ls, bs, if pending >= 0 then pending else i);
    AddKeeps(ls, closed, b);
    assert bs != [] ==> AllGaps(ls, closed[|closed| - 1].end, i);
    hide Selects, LinkedAt, StartsAt, AllGaps;
    forall k {:trigger LinkedAt(ls, closed + [b], k)} | 0 <= k < |closed + [b]| - 1
      ensures LinkedAt(ls, closed + [b], k)
    {
      assert k < |bs| - 1 ==> LinkedAt(ls, bs, k) && LinkedAt(ls, closed, k);
    }
    forall j {:trigger StartsAt(closed + [b], j)} | 0 <= j < i + 1 && ls[j].Header?
      ensures StartsAt(closed + [b], j)
    {
      assert j < i ==> StartsAt(bs, j) && StartsAt(closed, j);
    }
  }

  lemma OtherMore(ls: seq<Line>, bs: seq<Block>, name: string, i: nat, pending: int)
    requires PartitionTo(ls, bs, name, i, pending) && i < |ls| && !ls[i].Header?
    ensures ls[i].Comment? ==> PartitionTo(ls, bs, name, i + 1, if pending < 0 then i else pending)
    ensures ls[i].Blank? ==> PartitionTo(ls, bs, name, i + 1, pending)
    ensures ls[i].Pair? ==> PartitionTo(ls, bs, name, i + 1, -1)
  {
    hide BlockOk, LinkedAt, StartsAt;
  }

  lemma PartitionDone(ls: seq<Line>, bs: seq<Block>, name: string, pending: int)
    requires PartitionTo(ls, bs, name, |ls|, pending)
    ensures Partition(ls, if bs != [] && pending >= 0 then Close(bs, pending) else bs, name)
  {
    if bs != [] && pending >= 0 {
      CloseKeeps(ls, bs, pending);
      hide Selects, LinkedAt, StartsAt, AllGaps;
      var done := Close(bs, pending);
      forall k {:trigger LinkedAt(ls, done, k)} | 0 <= k < |done| - 1
        ensures LinkedAt(ls, done, k)
      {
        assert LinkedAt(ls, bs, k);
      }
      forall i {:trigger StartsAt(done, i)} | 0 <= i < |ls| && ls[i].Header?
        ensures StartsAt(done, i)
      {
        assert StartsAt(bs, i);
      }
    }
  }

  lemma UnsupportedIs(ls: seq<Line>, i: nat, name: string, context: seq<string>)
    requires i < |ls| && context == Last([], ls[..i])
    ensures Unsupported(ls, i, name) <==>
              || (ls[i].Header? && ls[i].isArray && Selects(ls[i], name))
              || (ls[i].Pair? && (context + ls[i].keys == [SERVERS] || (|context| < 2 && [SERVERS, name] <= context + ls[i].keys)))
  {
  }

  lemma LastMore(ls: seq<Line>, i: nat)
    requires i < |ls|
    ensures Last([], ls[..i + 1]) == Step(Last([], ls[..i]), ls[i])
  {
    assert ls[..i + 1] == ls[..i] + [ls[i]];
    LastSplit([], ls[..i], [ls[i]]);
  }

  /** The scan of the expressions. */
  method FindBlocks(ls: seq<Line>, name: string) returns (r: Option<seq<Block>>)
    ensures r.Some? <==> Supported(ls, name)
    ensures r.Some? ==> Partition(ls, r.value, name)
  {
    var blocks: seq<Block> := [];
    var pendingComment := -1;
    var currentKeys: seq<string> := [];
    var i := 0;
    assert PartitionTo(ls, blocks, name, 0, pendingComment);
    hide PartitionTo, Selects, Partition, Unsupported;
    while i < |ls|
      invariant 0 <= i <= |ls| && PartitionTo(ls, blocks, name, i, pendingComment)
      invariant currentKeys == Last([], ls[..i])
      invariant forall j :: 0 <= j < i ==> !Unsupported(ls, j, name)
    {
      LastMore(ls, i);
      UnsupportedIs(ls, i, name, currentKeys);
      if ls[i].Header? {
        HeaderMore(ls, blocks, name, i, pendingComment);
        if Selects(ls[i], name) && ls[i].isArray {
          return None;
        }
        blocks := Close(blocks, if pendingComment >= 0 then pendingComment else i) + [Block(i, |ls|, Selects(ls[i], name))];
        currentKeys := ls[i].keys;
        pendingComment := -1;
      } else {
        OtherMore(ls, blocks, name, i, pendingComment);
        if ls[i].Comment? && pendingComment < 0 {
          pendingComment := i;
        } else if ls[i].Pair? {
          var full := currentKeys + ls[i].keys;
          if full == [SERVERS] || (|currentKeys| < 2 && [SERVERS, name] <= full) {
            return None;
          }
          pendingComment := -1;
        }
      }
      i := i + 1;
    }
    assert ls[..i] == ls;
    PartitionDone(ls, blocks, name, pendingComment);
    if blocks != [] && pendingComment >= 0 {
      blocks := Close(blocks, pendingComment);
    }
    return Some(blocks);
  }

  // What lies inside and outside the selected tables.

  predicate InSelected(bs: seq<Block>, i: nat) {
    exists k :: 0 <= k < |bs| && bs[k].selected && bs[k].start <= i < bs[k].end
  }

  /** The header whose table line `g` belongs to. */
  lemma {:induction false} LastHeader(ls: seq<Line>, g: nat) returns (h: int)
    requires g <= |ls|
    ensures -1 <= h < g && (forall i :: h < i < g ==> !ls[i].Header?)
    ensures h >= 0 ==> ls[h].Header? && Last([], ls[..g]) == ls[h].keys
    ensures h == -1 ==> Last([], ls[..g]) == []
  {
    if g == 0 {
      h := -1;
    } else {
      h := LastHeader(ls, g - 1);
      LastMore(ls, g - 1);
      if ls[g - 1].Header? {
        h := g - 1;
      }
    }
  }

  lemma {:induction false} BlocksAscend(ls: seq<Line>, bs: seq<Block>, name: string, j: nat, k: nat)
    requires Partition(ls, bs, name) && j < k < |bs|
    ensures bs[j].end <= bs[k].start
  {
    assert LinkedAt(ls, bs, k - 1) && BlockOk(ls, bs[k - 1], name);
    if j < k - 1 {
      BlocksAscend(ls, bs, name, j, k - 1);
    }
  }

  /** A pair outside the selected tables is not about the server. */
  lemma PairElsewhere(ls: seq<Line>, bs: seq<Block>, name: string, g: nat)
    requires Supported(ls, name) && Partition(ls, bs, name) && g < |ls| && ls[g].Pair? && !InSelected(bs, g)
    ensures !([SERVERS, name] <= Last([], ls[..g]) + ls[g].keys)
  {
    var h := LastHeader(ls, g);
    assert !Unsupported(ls, g, name);
    if h >= 0 {
      assert StartsAt(bs, h);
      var k :| 0 <= k < |bs| && bs[k].start == h;
      assert BlockOk(ls, bs[k], name);
      PairInBlock(ls, bs, name, g, h, k);
    }
  }

  lemma PairInBlock(ls: seq<Line>, bs: seq<Block>, name: string, g: nat, h: nat, k: nat)
    requires Partition(ls, bs, name) && h < g < |ls| && ls[g].Pair? && (forall i :: h < i < g ==> !ls[i].Header?)
    requires k < |bs| && bs[k].start == h
    ensures g < bs[k].end
  {
    assert BlockOk(ls, bs[k], name);
    if k < |bs| - 1 {
      assert LinkedAt(ls, bs, k) && BlockOk(ls, bs[k + 1], name);
    }
  }

  /** A header outside the selected tables does not select. */
  lemma HeaderElsewhere(ls: seq<Line>, bs: seq<Block>, name: string, g: nat)
    requires Partition(ls, bs, name) && g < |ls| && !InSelected(bs, g)
    ensures !Selects(ls[g], name)
  {
    if ls[g].Header? {
      assert StartsAt(bs, g);
      var k :| 0 <= k < |bs| && bs[k].start == g;
      assert BlockOk(ls, bs[k], name);
    }
  }

  /** A stretch outside the selected tables says nothing about the server. */
  lemma ElsewhereReads(ls: seq<Line>, bs: seq<Block>, name: string, lo: nat, hi: nat)
    requires Supported(ls, name) && Partition(ls, bs, name) && lo <= hi <= |ls| && forall i :: lo <= i < hi ==>
              !InSelected(bs, i)
    ensures var r := Read(Last([], ls[..lo]), ls[lo..hi]); Only(r, name) == [] && Without(r, name) == r
  {
    var context, seg := Last([], ls[..lo]), ls[lo..hi];
    forall i | 0 <= i < |seg|
      ensures !Selects(seg[i], name)
      ensures seg[i].Pair? ==> !([SERVERS, name] <= Last(context, seg[..i]) + seg[i].keys)
    {
      HeaderElsewhere(ls, bs, name, lo + i);
      if seg[i].Pair? {
        PairElsewhere(ls, bs, name, lo + i);
        assert ls[..lo + i] == ls[..lo] + seg[..i];
        LastSplit([], ls[..lo], seg[..i]);
      }
    }
    NothingAbout(context, seg, name);
  }

  /** A selected table says nothing else. */
  lemma SelectedReads(ls: seq<Line>, bs: seq<Block>, name: string, k: nat, context: seq<string>)
    requires Partition(ls, bs, name) && k < |bs| && bs[k].selected
    ensures var b := bs[k]; b.start < b.end <= |ls| && Without(Read(context, ls[b.start..b.end]), name) == []
  {
    var b := bs[k];
    assert BlockOk(ls, b, name);
    var seg := ls[b.start..b.end];
    forall i | 0 <= i < |seg| && seg[i].Header?
      ensures Selects(seg[i], name)
    {
      assert StartsAt(bs, b.start + i);
      var m :| 0 <= m < |bs| && bs[m].start == b.start + i;
      assert BlockOk(ls, bs[m], name);
      if m < k {
        BlocksAscend(ls, bs, name, m, k);
      } else if k < m {
        BlocksAscend(ls, bs, name, k, m);
      }
    }
    StartsAbout(context, seg, name);
  }

  lemma StartsAbout(context: seq<string>, seg: seq<Line>, name: string)
    requires seg != [] && Selects(seg[0], name) && forall i :: 0 <= i < |seg| && seg[i].Header? ==>
              Selects(seg[i], name)
    ensures Only(Read(context, seg), name) == Read(context, seg) == Meaning(seg) && Without(Read(context, seg), name) == []
  {
    AllAbout(seg[0].keys, seg[1..], name);
    assert About(Open(seg[0].keys, seg[0].isArray), name);
    var first := [Open(seg[0].keys, seg[0].isArray)];
    assert Read(context, seg) == first + Read(seg[0].keys, seg[1..]) == Meaning(seg);
    FilterSplit(first, Read(seg[0].keys, seg[1..]), name);
    assert Only(first, name) == first && Without(first, name) == [];
  }

  /** The lines before `hi` that no selected table holds. */
  function Keep(ls: seq<Line>, bs: seq<Block>, hi: nat): seq<Line>
    requires hi <= |ls|
  {
    if hi == 0 then [] else Keep(ls, bs, hi - 1) + if InSelected(bs, hi - 1) then [] else [ls[hi - 1]]
  }

  lemma {:induction false} KeepRange(ls: seq<Line>, bs: seq<Block>, lo: nat, hi: nat)
    requires lo <= hi <= |ls|
    ensures (forall i :: lo <= i < hi ==> !InSelected(bs, i)) ==> Keep(ls, bs, hi) == Keep(ls, bs, lo) + ls[lo..hi]
    ensures (forall i :: lo <= i < hi ==> InSelected(bs, i)) ==> Keep(ls, bs, hi) == Keep(ls, bs, lo)
    decreases hi - lo
  {
    if lo < hi {
      KeepRange(ls, bs, lo, hi - 1);
      assert ls[lo..hi] == ls[lo..hi - 1] + [ls[hi - 1]];
    } else {
      assert ls[lo..hi] == [];
    }
  }

  /** An encoded server: its table and sub-tables, no array of tables. */
  predicate Encoded(rep: seq<Line>, name: string) {
    rep != [] && Selects(rep[0], name) && forall i :: 0 <= i < |rep| && rep[i].Header? ==> Selects(rep[i], name) && !rep[i].isArray
  }

  /** The tables before `k` are dealt with and `cursor` lines of the input are used up. */
  ghost predicate Position(ls: seq<Line>, bs: seq<Block>, k: nat, cursor: nat, inserted: bool, out: seq<Line>) {
    && k <= |bs| && cursor <= |ls|
    && (forall j :: 0 <= j < k && bs[j].selected ==> bs[j].end <= cursor)
    && (k < |bs| ==> cursor <= bs[k].start)
    && (if cursor == 0 then out == [] && !inserted else Fresh(ls[cursor..]))
  }

  /** The output is the kept lines with the encoded server once among them. */
  predicate Shaped(kept: seq<Line>, rep: seq<Line>, inserted: bool, out: seq<Line>, p: nat) {
    p <= |kept| && out == if inserted then kept[..p] + rep + kept[p..] else kept
  }

  /** The output says what the used-up input says elsewhere and what the encoded server says. */
  predicate Says(before: seq<Line>, name: string, rep: seq<Line>, inserted: bool, out: seq<Line>) {
    && Without(Meaning(out), name) == Without(Meaning(before), name)
    && Only(Meaning(out), name) == if inserted then Meaning(rep) else []
  }

  ghost predicate SpliceState(ls: seq<Line>, bs: seq<Block>, name: string, rep: seq<Line>, k: nat, cursor: nat,
      inserted: bool, out: seq<Line>, p: nat) {
    Position(ls, bs, k, cursor, inserted, out) && Shaped(Keep(ls, bs, cursor), rep, inserted, out, p)
        && Says(ls[..cursor], name, rep, inserted, out)
  }

  lemma {:induction false} FreshFrom(ls: seq<Line>, lo: nat, hi: nat)
    requires lo <= hi <= |ls| && AllGaps(ls, lo, hi) && (hi == |ls| || ls[hi].Header?)
    ensures Fresh(ls[lo..])
    decreases hi - lo
  {
    if lo < hi {
      FreshFrom(ls, lo + 1, hi);
      assert ls[lo..][1..] == ls[lo + 1..];
    }
  }

  lemma {:induction false} FreshPrefix(ls: seq<Line>, n: nat)
    requires Fresh(ls) && n <= |ls|
    ensures Fresh(ls[..n])
    decreases n
  {
    if n > 0 && Gap(ls[0]) {
      FreshPrefix(ls[1..], n - 1);
      assert ls[..n][1..] == ls[1..][..n - 1];
    }
  }

  lemma BlockEndsFresh(ls: seq<Line>, bs: seq<Block>, name: string, k: nat)
    requires Partition(ls, bs, name) && k < |bs|
    ensures bs[k].end <= |ls| && Fresh(ls[bs[k].end..])
  {
    assert BlockOk(ls, bs[k], name);
    if k < |bs| - 1 {
      assert LinkedAt(ls, bs, k) && BlockOk(ls, bs[k + 1], name);
      FreshFrom(ls, bs[k].end, bs[k + 1].start);
    } else {
      FreshFrom(ls, bs[k].end, |ls|);
    }
  }

  lemma NoneSelected(ls: seq<Line>, bs: seq<Block>, name: string, k: nat, lo: nat, hi: nat)
    requires Partition(ls, bs, name) && k <= |bs| && lo <= hi <= |ls|
    requires forall j :: 0 <= j < k && bs[j].selected ==> bs[j].end <= lo
    requires k < |bs| ==> hi <= bs[k].start
    ensures forall i :: lo <= i < hi ==> !InSelected(bs, i)
  {
    forall j | k < j < |bs|
      ensures hi <= bs[j].start
    {
      BlocksAscend(ls, bs, name, k, j);
      assert BlockOk(ls, bs[k], name);
    }
  }

  /** Copying a stretch outside the selected tables. */
  lemma CopyStretch(ls: seq<Line>, bs: seq<Block>, name: string, lo: nat, hi: nat, out: seq<Line>)
    requires Supported(ls, name) && Partition(ls, bs, name) && lo <= hi <= |ls| && (forall i :: lo <= i < hi ==> !InSelected(bs, i))
    requires if lo == 0 then out == [] else Fresh(ls[lo..])
    requires Without(Meaning(out), name) == Without(Meaning(ls[..lo]), name)
    ensures Without(Meaning(out + ls[lo..hi]), name) == Without(Meaning(ls[..hi]), name)
    ensures Only(Meaning(out + ls[lo..hi]), name) == Only(Meaning(out), name)
  {
    hide *;
    var seg, context := ls[lo..hi], Last([], ls[..lo]);
    ElsewhereReads(ls, bs, name, lo, hi);
    StretchReads(ls, lo, hi, out);
    MeaningMore(out, seg);
    MeaningMore(ls[..lo], seg);
    assert ls[..hi] == ls[..lo] + seg;
    FilterSplit(Meaning(out), Read(context, seg), name);
    FilterSplit(Meaning(ls[..lo]), Read(context, seg), name);
  }

  lemma MeaningMore(a: seq<Line>, b: seq<Line>)
    ensures Meaning(a + b) == Meaning(a) + Read(Last([], a), b)
  {
    ReadSplit([], a, b);
  }

  /** Copied after other text, a stretch reads as it did where it stood. */
  lemma StretchReads(ls: seq<Line>, lo: nat, hi: nat, out: seq<Line>)
    requires lo <= hi <= |ls| && if lo == 0 then out == [] else Fresh(ls[lo..])
    ensures Read(Last([], out), ls[lo..hi]) == Read(Last([], ls[..lo]), ls[lo..hi])
  {
    if lo == 0 {
      assert ls[..0] == [];
    } else {
      assert ls[lo..][..hi - lo] == ls[lo..hi];
      FreshPrefix(ls[lo..], hi - lo);
      FreshReads(Last([], out), Last([], ls[..lo]), ls[lo..hi]);
    }
  }

  /** Adding the encoded server. */
  lemma AddEncoded(out: seq<Line>, rep: seq<Line>, name: string)
    requires Encoded(rep, name)
    ensures Without(Meaning(out + rep), name) == Without(Meaning(out), name)
    ensures Only(Meaning(out + rep), name) == Only(Meaning(out), name) + Meaning(rep)
    ensures Only(Meaning(rep), name) == Meaning(rep)
  {
    StartsAbout(Last([], out), rep, name);
    StartsAbout([], rep, name);
    ReadSplit([], out, rep);
    FilterSplit(Meaning(out), Meaning(rep), name);
  }

  /** Skipping a selected table. */
  lemma SkipTable(ls: seq<Line>, bs: seq<Block>, name: string, k: nat)
    requires Partition(ls, bs, name) && k < |bs| && bs[k].selected
    ensures bs[k].start < bs[k].end <= |ls|
    ensures Without(Meaning(ls[..bs[k].end]), name) == Without(Meaning(ls[..bs[k].start]), name)
    ensures Keep(ls, bs, bs[k].end) == Keep(ls, bs, bs[k].start)
  {
    var b := bs[k];
    assert BlockOk(ls, b, name);
    SelectedReads(ls, bs, name, k, Last([], ls[..b.start]));
    assert ls[..b.end] == ls[..b.start] + ls[b.start..b.end];
    ReadSplit([], ls[..b.start], ls[b.start..b.end]);
    FilterSplit(Meaning(ls[..b.start]), Read(Last([], ls[..b.start]), ls[b.start..b.end]), name);
    KeepRange(ls, bs, b.start, b.end);
  }

  /** One selected table: what precedes it is copied, the encoded server goes in once, the table is skipped. */
  lemma SpliceNext(ls: seq<Line>, bs: seq<Block>, name: string, rep: seq<Line>, k: nat, cursor: nat, inserted: bool,
      out: seq<Line>, p: nat)
    requires Supported(ls, name) && Partition(ls, bs, name) && k < |bs| && bs[k].selected && (rep == [] || Encoded(rep, name))
    requires SpliceState(ls, bs, name, rep, k, cursor, inserted, out, p)
    ensures cursor <= bs[k].start < bs[k].end <= |ls|
    ensures SpliceState(ls, bs, name, rep, k + 1, bs[k].end, true, out + ls[cursor..bs[k].start] + (if inserted then [] else rep),
                        if inserted then p else |Keep(ls, bs, bs[k].start)|)
  {
    hide *;
    var b := bs[k];
    SkipTable(ls, bs, name, k);
    StateParts(ls, bs, name, rep, k, cursor, inserted, out, p);
    NoneSelected(ls, bs, name, k, cursor, b.start);
    KeepRange(ls, bs, cursor, b.start);
    ShapedMore(Keep(ls, bs, cursor), rep, inserted, out, p, ls[cursor..b.start]);
    PositionNext(ls, bs, name, k, cursor, inserted, out, out + ls[cursor..b.start] + (if inserted then [] else rep));
    SaysNext(ls, bs, name, rep, k, cursor, inserted, out);
    StateFolds(ls, bs, name, rep, k + 1, b.end, true, out + ls[cursor..b.start] + (if inserted then [] else rep),
               if inserted then p else |Keep(ls, bs, b.start)|, Keep(ls, bs, cursor) + ls[cursor..b.start]);
  }

  lemma StateParts(ls: seq<Line>, bs: seq<Block>, name: string, rep: seq<Line>, k: nat, cursor: nat, inserted: bool,
      out: seq<Line>, p: nat)
    requires SpliceState(ls, bs, name, rep, k, cursor, inserted, out, p)
    ensures Position(ls, bs, k, cursor, inserted, out) && Says(ls[..cursor], name, rep, inserted, out)
    ensures Shaped(Keep(ls, bs, cursor), rep, inserted, out, p)
    ensures k <= |bs| && cursor <= |ls| && (k < |bs| ==> cursor <= bs[k].start)
    ensures forall j :: 0 <= j < k && bs[j].selected ==> bs[j].end <= cursor
  {
  }

  lemma StateFolds(ls: seq<Line>, bs: seq<Block>, name: string, rep: seq<Line>, k: nat, cursor: nat, inserted: bool,
      out: seq<Line>, p: nat, kept: seq<Line>)
    requires Position(ls, bs, k, cursor, inserted, out) && kept == Keep(ls, bs, cursor)
    requires Shaped(kept, rep, inserted, out, p) && Says(ls[..cursor], name, rep, inserted, out)
    ensures SpliceState(ls, bs, name, rep, k, cursor, inserted, out, p)
  {
  }

  lemma ShapedMore(kept: seq<Line>, rep: seq<Line>, inserted: bool, out: seq<Line>, p: nat, seg: seq<Line>)
    requires Shaped(kept, rep, inserted, out, p)
    ensures Shaped(kept + seg, rep, true, out + seg + (if inserted then [] else rep), if inserted then p else |kept + seg|)
    ensures Shaped(kept + seg, rep, inserted, out + seg, p)
  {
    var all := kept + seg;
    if inserted {
      assert all[..p] == kept[..p] && all[p..] == kept[p..] + seg;
      assert out + seg + [] == all[..p] + rep + all[p..];
    } else {
      assert all[..|all|] == all && all[|all|..] == [];
      assert out + seg + rep == all + rep + [];
    }
  }

  lemma PositionNext(ls: seq<Line>, bs: seq<Block>, name: string, k: nat, cursor: nat, inserted: bool, out: seq<Line>,
      next: seq<Line>)
    requires Partition(ls, bs, name) && k < |bs| && Position(ls, bs, k, cursor, inserted, out)
    ensures Position(ls, bs, k + 1, bs[k].end, true, next)
  {
    BlockEndsFresh(ls, bs, name, k);
    EndsBefore(ls, bs, name, k);
    assert BlockOk(ls, bs[k], name);
    if k + 1 < |bs| {
      BlocksAscend(ls, bs, name, k, k + 1);
    }
    hide Partition, Fresh, BlockOk;
  }

  lemma SaysNext(ls: seq<Line>, bs: seq<Block>, name: string, rep: seq<Line>, k: nat, cursor: nat, inserted: bool,
      out: seq<Line>)
    requires Supported(ls, name) && Partition(ls, bs, name) && k < |bs| && bs[k].selected && (rep == [] || Encoded(rep, name))
    requires Position(ls, bs, k, cursor, inserted, out) && Says(ls[..cursor], name, rep, inserted, out)
    ensures cursor <= bs[k].start < bs[k].end <= |ls|
    ensures Says(ls[..bs[k].end], name, rep, true, out + ls[cursor..bs[k].start] + if inserted then [] else rep)
  {
    var b := bs[k];
    SkipTable(ls, bs, name, k);
    NoneSelected(ls, bs, name, k, cursor, b.start);
    var seg := ls[cursor..b.start];
    CopyStretch(ls, bs, name, cursor, b.start, out);
    if rep != [] {
      AddEncoded(out + seg, rep, name);
    } else {
      NothingMeansNothing();
      assert out + seg + rep == out + seg;
    }
    assert out + seg + [] == out + seg;
    hide Without, Only, Read, Partition, Supported, Fresh, Encoded, Keep, Position, InSelected;
  }

  lemma NothingMeansNothing()
    ensures Meaning([]) == []
  {
  }

  lemma EndsBefore(ls: seq<Line>, bs: seq<Block>, name: string, k: nat)
    requires Partition(ls, bs, name) && k < |bs|
    ensures forall j :: 0 <= j <= k ==> bs[j].end <= bs[k].end
  {
    assert BlockOk(ls, bs[k], name);
    forall j | 0 <= j < k
      ensures bs[j].end <= bs[k].end
    {
      BlocksAscend(ls, bs, name, j, k);
    }
  }

  predicate EndsLine(ls: seq<Line>) {
    ls == [] || (ls[|ls| - 1].text != "" && ls[|ls| - 1].text[|ls[|ls| - 1].text| - 1] == '\n')
  }

  const NEWLINE := Blank("\n")

  lemma BlankMeansNothing(out: seq<Line>)
    ensures Meaning(out + [NEWLINE]) == Meaning(out)
  {
    ReadSplit([], out, [NEWLINE]);
    assert Read(Last([], out), [NEWLINE]) == [];
  }

  /** Where the encoded server went: `kept` with it at `p`, after a line end if one was missing. */
  predicate PlacedIn(kept: seq<Line>, rep: seq<Line>, out: seq<Line>, p: nat) {
    p <= |kept| && (out == kept[..p] + rep + kept[p..] || (p == |kept| && out == kept + [NEWLINE] + rep))
  }

  /** The second loop. An empty `rep` is a removal. */
  method Splice(ls: seq<Line>, bs: seq<Block>, name: string, rep: seq<Line>) returns (out: seq<Line>, ghost p: nat)
    requires Supported(ls, name) && Partition(ls, bs, name) && (rep == [] || Encoded(rep, name))
    ensures rep == [] ==> out == Keep(ls, bs, |ls|)
    ensures rep != [] ==> PlacedIn(Keep(ls, bs, |ls|), rep, out, p)
    ensures Without(Meaning(out), name) == Without(Meaning(ls), name)
    ensures Only(Meaning(out), name) == Meaning(rep)
  {
    var cursor, inserted := 0, false;
    out, p := [], 0;
    var k := 0;
    SpliceStarts(ls, bs, name, rep);
    hide *;
    while k < |bs|
      invariant 0 <= k <= |bs| && 0 <= cursor <= |ls|
      invariant SpliceState(ls, bs, name, rep, k, cursor, inserted, out, p)
    {
      if bs[k].selected {
        SpliceNext(ls, bs, name, rep, k, cursor, inserted, out, p);
        out := out + ls[cursor..bs[k].start] + if inserted then [] else rep;
        p := if inserted then p else |Keep(ls, bs, bs[k].start)|;
        inserted := true;
        cursor := bs[k].end;
      } else {
        SpliceSkips(ls, bs, name, rep, k, cursor, inserted, out, p);
      }
      k := k + 1;
    }
    SpliceEnds(ls, bs, name, rep, cursor, inserted, out, p);
    out := out + ls[cursor..];
    if !inserted && rep != [] {
      p := |Keep(ls, bs, |ls|)|;
      AppendPlaced(Keep(ls, bs, |ls|), rep, name);
      BlankMeansNothing(out);
      AddEncoded(out, rep, name);
      AddEncoded(out + [NEWLINE], rep, name);
      out := out + (if EndsLine(out) then [] else [NEWLINE]) + rep;
    }
  }

  lemma AppendPlaced(kept: seq<Line>, rep: seq<Line>, name: string)
    ensures PlacedIn(kept, rep, kept + [] + rep, |kept|) && PlacedIn(kept, rep, kept + [NEWLINE] + rep, |kept|)
    ensures kept + [] == kept
  {
    assert kept[..|kept|] == kept && kept[|kept|..] == [] && kept + [] + rep == kept + rep + [];
  }

  lemma SpliceStarts(ls: seq<Line>, bs: seq<Block>, name: string, rep: seq<Line>)
    ensures SpliceState(ls, bs, name, rep, 0, 0, false, [], 0)
  {
    assert ls[..0] == [];
  }

  lemma SpliceSkips(ls: seq<Line>, bs: seq<Block>, name: string, rep: seq<Line>, k: nat, cursor: nat, inserted: bool,
      out: seq<Line>, p: nat)
    requires Partition(ls, bs, name) && k < |bs| && !bs[k].selected && SpliceState(ls, bs, name, rep, k, cursor, inserted, out, p)
    ensures SpliceState(ls, bs, name, rep, k + 1, cursor, inserted, out, p)
  {
    hide *;
    StateParts(ls, bs, name, rep, k, cursor, inserted, out, p);
    PositionSkips(ls, bs, name, k, cursor, inserted, out);
    StateFolds(ls, bs, name, rep, k + 1, cursor, inserted, out, p, Keep(ls, bs, cursor));
  }

  lemma PositionSkips(ls: seq<Line>, bs: seq<Block>, name: string, k: nat, cursor: nat, inserted: bool, out: seq<Line>)
    requires Partition(ls, bs, name) && k < |bs| && !bs[k].selected && Position(ls, bs, k, cursor, inserted, out)
    ensures Position(ls, bs, k + 1, cursor, inserted, out)
  {
    assert BlockOk(ls, bs[k], name);
    if k + 1 < |bs| {
      BlocksAscend(ls, bs, name, k, k + 1);
    }
    hide Partition, Fresh;
  }

  /** What follows the last selected table is copied. */
  lemma SpliceEnds(ls: seq<Line>, bs: seq<Block>, name: string, rep: seq<Line>, cursor: nat, inserted: bool,
      out: seq<Line>, p: nat)
    requires Supported(ls, name) && Partition(ls, bs, name) && cursor <= |ls|
    requires SpliceState(ls, bs, name, rep, |bs|, cursor, inserted, out, p)
    ensures var all := out + ls[cursor..];
            && Without(Meaning(all), name) == Without(Meaning(ls), name)
            && Only(Meaning(all), name) == (if inserted then Meaning(rep) else [])
            && (inserted ==> if rep == [] then all == Keep(ls, bs, |ls|) else PlacedIn(Keep(ls, bs, |ls|), rep, all, p))
            && (!inserted ==> all == Keep(ls, bs, |ls|))
    ensures Meaning([]) == []
  {
    assert ls[cursor..|ls|] == ls[cursor..] && ls[..|ls|] == ls;
    NoneSelected(ls, bs, name, |bs|, cursor, |ls|);
    CopyStretch(ls, bs, name, cursor, |ls|, out);
    KeepRange(ls, bs, cursor, |ls|);
    NothingMeansNothing();
    assert Shaped(Keep(ls, bs, cursor), rep, inserted, out, p) && Says(ls[..cursor], name, rep, inserted, out);
    hide Partition, Supported, Fresh, Without, Only, Meaning, Keep, Position, InSelected, Shaped;
    ShapedEnds(Keep(ls, bs, cursor), rep, inserted, out, p, ls[cursor..]);
  }

  lemma ShapedEnds(kept: seq<Line>, rep: seq<Line>, inserted: bool, out: seq<Line>, p: nat, seg: seq<Line>)
    requires Shaped(kept, rep, inserted, out, p)
    ensures inserted ==> if rep == [] then out + seg == kept + seg else PlacedIn(kept + seg, rep, out + seg, p)
    ensures !inserted ==> out + seg == kept + seg
  {
    ShapedMore(kept, rep, inserted, out, p, seg);
    var all := kept + seg;
    if rep == [] {
      assert all[..p] + [] + all[p..] == all;
      assert kept[..p] + [] + kept[p..] == kept;
    }
  }

  // The whole edit.

  /** The server is there if anything is said about it. */
  predicate Exists(ls: seq<Line>, name: string) {
    Only(Meaning(ls), name) != []
  }

  /** `patchTOML`: None for a layout it refuses. The selected server says what `rep` says, or nothing;
      everything else says what it said; and every line outside the server's tables stays, in order. */
  method PatchToml(ls: seq<Line>, name: string, rep: seq<Line>)
    returns (r: Option<seq<Line>>, ghost bs: seq<Block>, ghost p: nat)
    requires rep == [] || Encoded(rep, name)
    ensures r.Some? <==> Supported(ls, name)
    ensures r.Some? ==> Partition(ls, bs, name)
    ensures r.Some? ==> Only(Meaning(r.value), name) == Meaning(rep) && Without(Meaning(r.value), name) == Without(Meaning(ls), name)
    ensures r.Some? ==>
              if rep == [] then r.value == Keep(ls, bs, |ls|) else PlacedIn(Keep(ls, bs, |ls|), rep, r.value, p)
  {
    hide *;
    bs, p := [], 0;
    var blocks := FindBlocks(ls, name);
    if blocks == None {
      return None, bs, p;
    }
    bs := blocks.value;
    var seen := AnySelected(blocks.value);
    // The refusal of a server that is there without a table cannot happen here.
    assert Exists(ls, name) ==> seen by {
      if Exists(ls, name) {
        SeenIfThere(ls, blocks.value, name);
      }
    }
    var out;
    out, p := Splice(ls, blocks.value, name, rep);
    return Some(out), bs, p;
  }

  method AnySelected(bs: seq<Block>) returns (seen: bool)
    ensures seen <==> exists k :: 0 <= k < |bs| && bs[k].selected
  {
    for k := 0 to |bs|
      invariant forall j :: 0 <= j < k ==> !bs[j].selected
    {
      if bs[k].selected {
        return true;
      }
    }
    return false;
  }

  /** In a supported layout a server that is there has a table: the last refusal never happens. */
  lemma SeenIfThere(ls: seq<Line>, bs: seq<Block>, name: string)
    requires Supported(ls, name) && Partition(ls, bs, name) && Exists(ls, name)
    ensures exists k :: 0 <= k < |bs| && bs[k].selected
  {
    if forall k :: 0 <= k < |bs| ==> !bs[k].selected {
      NothingThere(ls, bs, name);
    }
  }

  lemma NothingThere(ls: seq<Line>, bs: seq<Block>, name: string)
    requires Supported(ls, name) && Partition(ls, bs, name) && forall k :: 0 <= k < |bs| ==> !bs[k].selected
    ensures Only(Meaning(ls), name) == []
  {
    ElsewhereReads(ls, bs, name, 0, |ls|);
    assert ls[0..|ls|] == ls && ls[..0] == [];
  }

  lemma AboutOne(e: Event, name: string, other: string)
    requires other != name
    ensures !(About(e, name) && About(e, other))
  {
    assert About(e, name) ==> e.path[1] == [SERVERS, name][1];
    assert About(e, other) ==> e.path[1] == [SERVERS, other][1];
  }

  /** What is said about another server is untouched. */
  lemma {:induction false} OtherServers(es: seq<Event>, name: string, other: string)
    requires other != name
    ensures Only(es, other) == Only(Without(es, name), other)
  {
    if es != [] {
      OtherServers(es[1..], name, other);
      AboutOne(es[0], name, other);
      hide About;
      if About(es[0], name) {
        assert Without(es, name) == Without(es[1..], name) && Only(es, other) == [] + Only(es[1..], other);
      } else {
        var rest := Without(es[1..], name);
        assert Without(es, name) == [es[0]] + rest && ([es[0]] + rest)[1..] == rest && ([es[0]] + rest)[0] == es[0];
      }
    }
  }
}
