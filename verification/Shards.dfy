/**
 The test shard planner and auditor of scripts/windows-shards.py.

 A plan splits the packages and the roots of two large packages into commands that
 fit the command line; an audit reads the logs again and accepts only when they
 show each planned root started once and finished once.
 */
module Shards {
  import opened Options
  import opened Ordering

  const MAX_COMMAND: nat := 16000

  type Names = seq<string>

  /** One test command: the whole package, or the listed roots of it. */
  datatype Work = Work(shard: nat, package: string, roots: Option<Names>)

  datatype Task = Task(id: nat, work: Work)

  // ---------------------------------------------------------------- commands

  /** UTF-16 units: a character beyond the basic plane takes two. */
  function Units(s: string): nat {
    if s == [] then 0 else (if s[0] as int < 0x10000 then 1 else 2) + Units(s[1..])
  }

  function Joined(names: Names, sep: string): string {
    if names == [] then ""
    else if |names| == 1 then names[0]
    else names[0] + sep + Joined(names[1..], sep)
  }

  predicate WordChar(c: char) {
    'a' <= c <= 'z' || 'A' <= c <= 'Z' || '0' <= c <= '9' || c == '_'
  }

  predicate ValidRoot(name: string) {
    && ("Test" <= name || "Example" <= name || "Fuzz" <= name)
    && forall c <- name :: WordChar(c)
  }

  function Quoted(name: string): string {
    if name == [] then ""
    else (if name[0] in "\\.+*?()|[]{}^$" then "\\" else "") + [name[0]] + Quoted(name[1..])
  }

  function QuotedAll(names: Names): Names {
    if names == [] then [] else [Quoted(names[0])] + QuotedAll(names[1..])
  }

  function Regex(names: Names): string {
    "^(" + Joined(QuotedAll(names), "|") + ")$"
  }

  function Command(package: string, roots: Option<Names>): Names {
    ["go", "test", "-json", "-count=1", "-timeout=20m"]
    + (if roots.Some? then ["-run", Regex(roots.value)] else [])
    + [package]
  }

  function CommandUnits(args: Names): nat {
    Units(Joined(args, " ")) + 1
  }

  predicate Fits(package: string, roots: Option<Names>) {
    CommandUnits(Command(package, roots)) <= MAX_COMMAND
  }

  lemma {:induction false} UnitsJoin(a: string, b: string)
    ensures Units(a + b) == Units(a) + Units(b)
  {
    if a == [] {
      assert a + b == b;
    } else {
      UnitsJoin(a[1..], b);
      assert (a + b)[1..] == a[1..] + b;
    }
  }

  /** What the names take in the pattern, one separator each. */
  function NamesUnits(names: Names): nat {
    if names == [] then 0 else Units(Quoted(names[0])) + 1 + NamesUnits(names[1..])
  }

  lemma {:induction false} PatternUnits(names: Names)
    requires names != []
    ensures Units(Joined(QuotedAll(names), "|")) + 1 == NamesUnits(names)
  {
    var q := QuotedAll(names);
    if |names| == 1 {
      assert QuotedAll(names[1..]) == [];
    } else {
      PatternUnits(names[1..]);
      assert QuotedAll(names[1..]) != [] && q[1..] == QuotedAll(names[1..]);
      assert Joined(q, "|") == q[0] + "|" + Joined(q[1..], "|");
      UnitsJoin(q[0] + "|", Joined(q[1..], "|"));
      UnitsJoin(q[0], "|");
      assert "|"[1..] == "" && Units("|") == 1;
    }
  }

  lemma {:induction false} NamesUnitsJoin(a: Names, b: Names)
    ensures NamesUnits(a + b) == NamesUnits(a) + NamesUnits(b)
  {
    if a == [] {
      assert a + b == b;
    } else {
      NamesUnitsJoin(a[1..], b);
      assert (a + b)[1..] == a[1..] + b;
    }
  }

  lemma {:induction false} JoinedLast(names: Names, last: string, sep: string)
    requires names != []
    ensures Joined(names + [last], sep) == Joined(names, sep) + sep + last
  {
    var all := names + [last];
    assert all[1..] == names[1..] + [last];
    if |names| > 1 {
      JoinedLast(names[1..], last, sep);
    } else {
      assert all[1..] == [last];
    }
  }

  /** A filtered command costs a fixed amount for its package plus its names. */
  lemma FilteredUnits(package: string, names: Names) returns (fixed: nat)
    requires names != []
    ensures fixed == FixedUnits(package)
    ensures CommandUnits(Command(package, Some(names))) == fixed + NamesUnits(names)
  {
    fixed := FixedUnits(package);
    var head := ["go", "test", "-json", "-count=1", "-timeout=20m"] + ["-run"];
    assert Command(package, Some(names)) == head + [Regex(names)] + [package];
    FilteredLine(head, package, names);
    PatternUnits(names);
  }

  function FixedUnits(package: string): nat {
    Units(Joined(["go", "test", "-json", "-count=1", "-timeout=20m"] + ["-run"], " ")) + 6 + Units(package)
  }

  lemma FilteredLine(head: Names, package: string, names: Names)
    requires head != []
    ensures Units(Joined(head + [Regex(names)] + [package], " "))
         == Units(Joined(head, " ")) + Units(package) + 6 + Units(Joined(QuotedAll(names), "|"))
  {
    var p := Joined(QuotedAll(names), "|");
    JoinedLast(head + [Regex(names)], package, " ");
    JoinedLast(head, Regex(names), " ");
    UnitsJoin(Joined(head + [Regex(names)], " ") + " ", package);
    UnitsJoin(Joined(head + [Regex(names)], " "), " ");
    UnitsJoin(Joined(head, " ") + " ", Regex(names));
    UnitsJoin(Joined(head, " "), " ");
    UnitsJoin("^(" + p, ")$");
    UnitsJoin("^(", p);
    Small();
  }

  lemma Small()
    ensures Units(" ") == 1 && Units("^(") == 2 && Units(")$") == 2
  {
    assert " "[1..] == "" && "^("[1..] == "(" && "("[1..] == "" && ")$"[1..] == "$" && "$"[1..] == "";
    assert Units("(") == 1 && Units("$") == 1;
  }

  /** Fewer names never cost more. */
  lemma FewerFit(package: string, left: Names, names: Names, right: Names)
    requires names != [] && Fits(package, Some(left + names + right))
    ensures Fits(package, Some(names))
  {
    hide NamesUnits;
    var all := left + names + right;
    var f := FilteredUnits(package, names);
    var g := FilteredUnits(package, all);
    NamesUnitsJoin(left + names, right);
    NamesUnitsJoin(left, names);
  }

  // ---------------------------------------------------------------- batches

  function Flat(batches: seq<Names>): Names {
    if batches == [] then [] else batches[0] + Flat(batches[1..])
  }

  /** The batches still to come, when `batch` is filled and `rest` remains. */
  function Batches(package: string, batch: Names, rest: Names): seq<Names>
    decreases |rest|
  {
    if rest == [] then (if batch == [] then [] else [batch])
    else if batch == [] || Fits(package, Some(batch + [rest[0]])) then Batches(package, batch + [rest[0]], rest[1..])
    else [batch] + Batches(package, [rest[0]], rest[1..])
  }

  predicate FitsAlone(package: string, name: string) {
    ValidRoot(name) && Fits(package, Some([name]))
  }

  predicate AllFitAlone(package: string, names: Names) {
    forall n <- names :: FitsAlone(package, n)
  }

  /** Each batch is non-empty and fits, and none could have taken the next name. */
  predicate Greedy(package: string, batches: seq<Names>) {
    && (forall b <- batches :: b != [] && Fits(package, Some(b)))
    && forall i :: 0 <= i < |batches| - 1 ==> Full(package, batches[i], batches[i + 1])
  }

  predicate Full(package: string, batch: Names, following: Names) {
    following != [] && !Fits(package, Some(batch + [following[0]]))
  }

  /** The batches hold the names in order, and are greedy. */
  lemma {:induction false} BatchesHold(package: string, batch: Names, rest: Names)
    requires AllFitAlone(package, rest)
    requires batch == [] || Fits(package, Some(batch))
    ensures Flat(Batches(package, batch, rest)) == batch + rest
    ensures Greedy(package, Batches(package, batch, rest))
    ensures batch != [] ==> Batches(package, batch, rest) != [] && batch <= Batches(package, batch, rest)[0]
    ensures batch + rest != [] ==> Batches(package, batch, rest) != []
    decreases |rest|
  {
    hide Fits;
    var out := Batches(package, batch, rest);
    if rest == [] {
      if batch != [] {
        assert out == [batch] && out[1..] == [];
        assert batch + rest == batch;
      }
    } else if batch == [] || Fits(package, Some(batch + [rest[0]])) {
      assert FitsAlone(package, rest[0]);
      assert batch == [] ==> batch + [rest[0]] == [rest[0]];
      BatchesHold(package, batch + [rest[0]], rest[1..]);
      assert batch + [rest[0]] + rest[1..] == batch + rest;
    } else {
      assert FitsAlone(package, rest[0]);
      var more := Batches(package, [rest[0]], rest[1..]);
      BatchesHold(package, [rest[0]], rest[1..]);
      assert out[1..] == more && [rest[0]] + rest[1..] == rest;
      assert more[0][0] == rest[0];
      assert Full(package, batch, more[0]);
      forall i | 0 <= i < |out| - 1
        ensures Full(package, out[i], out[i + 1])
      {
        if i > 0 {
          assert Full(package, more[i - 1], more[i]);
        }
      }
    }
  }

  /** No other way of cutting the names into fitting batches needs fewer. */
  lemma {:induction false} FewestBatches(package: string, before: Names, batch: Names, rest: Names, cut: seq<Names>)
    requires forall b <- cut :: b == [] || Fits(package, Some(b))
    requires Flat(cut) == before + batch + rest
    requires batch != []
    ensures |Batches(package, batch, rest)| <= |cut|
    decreases |rest|
  {
    hide Fits;
    assert cut != [];
    if rest != [] {
      var next := batch + [rest[0]];
      assert before + batch + rest == before + next + rest[1..];
      if Fits(package, Some(next)) {
        FewestBatches(package, before, next, rest[1..], cut);
      } else {
        var c := cut[0];
        FirstCutIsShort(package, before, batch, rest, cut);
        var left := (before + batch)[|c|..];
        assert Flat(cut) == c + Flat(cut[1..]);
        assert Flat(cut[1..]) == Flat(cut)[|c|..] == (before + batch + rest)[|c|..] == left + [rest[0]] + rest[1..];
        FewestBatches(package, left, [rest[0]], rest[1..], cut[1..]);
      }
    }
  }

  lemma FirstCutIsShort(package: string, before: Names, batch: Names, rest: Names, cut: seq<Names>)
    requires forall b <- cut :: b == [] || Fits(package, Some(b))
    requires cut != [] && rest != [] && Flat(cut) == before + batch + rest
    requires !Fits(package, Some(batch + [rest[0]]))
    ensures |cut[0]| <= |before + batch|
  {
    hide Fits;
    var c := cut[0];
    assert Flat(cut) == c + Flat(cut[1..]);
    if |c| > |before + batch| {
      var next := batch + [rest[0]];
      var right := c[|before| + |next|..];
      assert c == (before + batch + rest)[..|c|];
      assert c == before + next + right;
      FewerFit(package, before, next, right);
    }
  }

  // ---------------------------------------------------------------- the plan

  /** The names of one shard: every `count`th from `shard` on. */
  function Stride(roots: Names, shard: nat, count: nat): Names
    requires count > 0
    decreases |roots| - shard
  {
    if shard >= |roots| then [] else [roots[shard]] + Stride(roots, shard + count, count)
  }

  function BatchWorks(shard: nat, package: string, batches: seq<Names>): seq<Work> {
    if batches == [] then [] else [Work(shard, package, Some(batches[0]))] + BatchWorks(shard, package, batches[1..])
  }

  function ShardWorks(package: string, roots: Names, count: nat, shard: nat): seq<Work>
    requires count > 0
  {
    BatchWorks(shard, package, Batches(package, [], Stride(roots, shard, count)))
  }

  /** The commands of one split package, shards from `shard` up. */
  function PackageWorks(package: string, roots: Names, count: nat, shard: nat): seq<Work>
    requires count > 0
    decreases count - shard
  {
    if shard >= count then [] else ShardWorks(package, roots, count, shard) + PackageWorks(package, roots, count, shard + 1)
  }

  function SplitWorks(split: map<string, Names>, names: Names, count: nat): seq<Work>
    requires count > 0 && forall p <- names :: p in split
  {
    if names == [] then [] else PackageWorks(names[0], split[names[0]], count, 0) + SplitWorks(split, names[1..], count)
  }

  predicate IsWhole(split: map<string, Names>, package: string) {
    package !in split || split[package] == []
  }

  function Others(packages: Names, split: map<string, Names>): Names {
    if packages == [] then []
    else (if IsWhole(split, packages[0]) then [packages[0]] else []) + Others(packages[1..], split)
  }

  function WholeWorks(others: Names, count: nat): seq<Work>
    requires count > 0
  {
    seq(|others|, i requires 0 <= i < |others| => Work(i % count, others[i], None))
  }

  function AllWorks(packages: Names, split: map<string, Names>, count: nat): seq<Work>
    requires count > 0
  {
    WholeWorks(Others(packages, split), count) + SplitWorks(split, Listed(split.Keys), count)
  }

  function Numbered(works: seq<Work>): seq<Task> {
    seq(|works|, i requires 0 <= i < |works| => Task(i, works[i]))
  }

  /** What planning needs: each whole package and each root fits a command of its own. */
  predicate Fitting(packages: Names, split: map<string, Names>) {
    && (forall p <- packages :: IsWhole(split, p) ==> Fits(p, None))
    && forall p <- split :: AllFitAlone(p, split[p])
  }

  lemma BatchesStep(package: string, batch: Names, selected: Names, i: nat)
    requires i < |selected|
    ensures (batch == [] || Fits(package, Some(batch + [selected[i]]))) ==>
              Batches(package, batch, selected[i..]) == Batches(package, batch + [selected[i]], selected[i + 1..])
    ensures batch != [] && !Fits(package, Some(batch + [selected[i]])) ==>
              Batches(package, batch, selected[i..]) == [batch] + Batches(package, [selected[i]], selected[i + 1..])
  {
    assert selected[i..][0] == selected[i] && selected[i..][1..] == selected[i + 1..];
    hide Fits;
  }

  lemma BatchesEnd(package: string, batch: Names)
    ensures Batches(package, batch, []) == if batch == [] then [] else [batch]
  {
  }

  lemma OneMoreFits(package: string, selected: Names, i: nat)
    requires i < |selected|
    ensures AllFitAlone(package, selected[..i + 1]) <==>
              AllFitAlone(package, selected[..i]) && FitsAlone(package, selected[i])
    ensures AllFitAlone(package, selected) ==> FitsAlone(package, selected[i])
  {
    hide FitsAlone;
    assert selected[..i + 1] == selected[..i] + [selected[i]];
  }

  lemma AloneIs(package: string, name: string)
    ensures FitsAlone(package, name) <==> ValidRoot(name) && Fits(package, Some([name]))
  {
    hide ValidRoot, Fits;
  }

  /** A batch that fits shows that its last name fits alone. */
  lemma LastFits(package: string, batch: Names, name: string)
    requires Fits(package, Some(batch + [name]))
    ensures Fits(package, Some([name]))
  {
    hide *;
    assert batch + [name] + [] == batch + [name];
    FewerFit(package, batch, [name], []);
  }

  /** The greedy loop over one shard's names. */
  method SplitShard(package: string, selected: Names, shard: nat) returns (out: Option<seq<Work>>)
    ensures out.Some? <==> AllFitAlone(package, selected)
    ensures out.Some? ==> out.value == BatchWorks(shard, package, Batches(package, [], selected))
  {
    hide *;
    var works: seq<Work> := [];
    var batch: Names := [];
    ghost var done: seq<Names> := [];
    NoneYet(shard, package);
    assert selected[0..] == selected;
    for i := 0 to |selected|
      invariant AllFitAlone(package, selected[..i])
      invariant works == BatchWorks(shard, package, done)
      invariant done + Batches(package, batch, selected[i..]) == Batches(package, [], selected)
    {
      var name := selected[i];
      OneMoreFits(package, selected, i);
      AloneIs(package, name);
      BatchesStep(package, batch, selected, i);
      BatchesStep(package, [], selected, i);
      assert [] + [name] == [name];
      if !ValidRoot(name) {
        return None;
      }
      if !Fits(package, Some(batch + [name])) {
        if batch == [] {
          assert batch + [name] == [name];
          return None;
        }
        works := works + [Work(shard, package, Some(batch))];
        OneMoreBatch(shard, package, done, batch);
        assert done + ([batch] + Batches(package, [name], selected[i + 1..])) == done + [batch] + Batches(package,
            [name], selected[i + 1..]);
        done := done + [batch];
        batch := [];
      }
      batch := batch + [name];
      if !Fits(package, Some(batch)) {
        return None;
      }
      LastFits(package, batch[..|batch| - 1], name);
    }
    assert selected[..|selected|] == selected && selected[|selected|..] == [];
    BatchesEnd(package, batch);
    if batch != [] {
      works := works + [Work(shard, package, Some(batch))];
      OneMoreBatch(shard, package, done, batch);
    } else {
      assert done + [] == done;
    }
    return Some(works);
  }

  lemma NoneYet(shard: nat, package: string)
    ensures BatchWorks(shard, package, []) == []
    ensures AllFitAlone(package, [])
  {
  }

  lemma OneMoreBatch(shard: nat, package: string, done: seq<Names>, batch: Names)
    ensures BatchWorks(shard, package, done + [batch]) == BatchWorks(shard, package, done) + [Work(shard, package, Some(batch))]
  {
    hide *;
    BatchWorksJoin(shard, package, done, [batch]);
    BatchWorksStart(shard, package, batch, []);
    NoneYet(shard, package);
    assert [batch] + [] == [batch];
  }

  lemma BatchWorksStart(shard: nat, package: string, batch: Names, rest: seq<Names>)
    ensures BatchWorks(shard, package, [batch] + rest) == [Work(shard, package, Some(batch))] + BatchWorks(shard, package, rest)
  {
    var all := [batch] + rest;
    assert all[0] == batch && all[1..] == rest;
  }

  lemma {:induction false} BatchWorksJoin(shard: nat, package: string, a: seq<Names>, b: seq<Names>)
    ensures BatchWorks(shard, package, a + b) == BatchWorks(shard, package, a) + BatchWorks(shard, package, b)
  {
    if a == [] {
      assert a + b == b;
    } else {
      hide *;
      BatchWorksJoin(shard, package, a[1..], b);
      BatchWorksStart(shard, package, a[0], a[1..] + b);
      BatchWorksStart(shard, package, a[0], a[1..]);
      assert [a[0]] + (a[1..] + b) == a + b;
      assert [a[0]] + a[1..] == a;
    }
  }

  lemma {:induction false} StrideInside(roots: Names, shard: nat, count: nat)
    requires count > 0
    ensures forall n <- Stride(roots, shard, count) :: n in roots
    decreases |roots| - shard
  {
    if shard < |roots| {
      StrideInside(roots, shard + count, count);
    }
  }

  lemma {:induction false} StrideHas(roots: Names, shard: nat, k: nat, count: nat)
    requires count > 0 && shard + k * count < |roots|
    ensures roots[shard + k * count] in Stride(roots, shard, count)
    decreases k
  {
    if k > 0 {
      assert shard + count + (k - 1) * count == shard + k * count;
      assert 0 <= (k - 1) * count;
      StrideHas(roots, shard + count, k - 1, count);
    } else {
      assert k * count == 0;
    }
  }

  predicate StridesFit(package: string, roots: Names, lo: nat, hi: nat, count: nat)
    requires count > 0
  {
    forall s: nat :: lo <= s < hi ==> AllFitAlone(package, Stride(roots, s, count))
  }

  /** Every root is in the stride of its own position, so each one is tried. */
  lemma StridesCover(package: string, roots: Names, count: nat)
    requires count > 0
    ensures StridesFit(package, roots, 0, count, count) <==> AllFitAlone(package, roots)
  {
    hide Stride, FitsAlone;
    if StridesFit(package, roots, 0, count, count) {
      forall n | n in roots
        ensures FitsAlone(package, n)
      {
        var i: nat :| i < |roots| && roots[i] == n;
        var s: nat := i % count;
        assert s + i / count * count == i;
        StrideHas(roots, s, i / count, count);
        assert AllFitAlone(package, Stride(roots, s, count));
      }
    }
    if AllFitAlone(package, roots) {
      forall s: nat | 0 <= s < count
        ensures AllFitAlone(package, Stride(roots, s, count))
      {
        StrideInside(roots, s, count);
      }
    }
  }

  /** The loop over the shards of one split package. */
  method SplitPackage(package: string, roots: Names, count: nat) returns (out: Option<seq<Work>>)
    requires count > 0
    ensures out.Some? <==> AllFitAlone(package, roots)
    ensures out.Some? ==> out.value == PackageWorks(package, roots, count, 0)
  {
    hide FitsAlone, Stride, Batches, BatchWorks;
    StridesCover(package, roots, count);
    var works: seq<Work> := [];
    for shard := 0 to count
      invariant StridesFit(package, roots, 0, shard, count)
      invariant works + PackageWorks(package, roots, count, shard) == PackageWorks(package, roots, count, 0)
    {
      var more := SplitShard(package, Stride(roots, shard, count), shard);
      if more == None {
        return None;
      }
      assert works + (more.value + PackageWorks(package, roots, count, shard + 1))
        == works + more.value + PackageWorks(package, roots, count, shard + 1);
      works := works + more.value;
    }
    assert works + [] == works;
    return Some(works);
  }

  /** The packages that run whole, dealt to the shards in turn. */
  method DealWhole(packages: Names, split: map<string, Names>, count: nat) returns (works: seq<Work>)
    requires count > 0
    ensures works == WholeWorks(Others(packages, split), count)
  {
    hide *;
    var others: Names := [];
    assert packages[0..] == packages;
    for i := 0 to |packages|
      invariant others + Others(packages[i..], split) == Others(packages, split)
    {
      OthersStart(packages[i..], split);
      assert packages[i..][1..] == packages[i + 1..] && packages[i..][0] == packages[i];
      var more := if IsWhole(split, packages[i]) then [packages[i]] else [];
      assert others + (more + Others(packages[i + 1..], split)) == others + more + Others(packages[i + 1..], split);
      others := others + more;
    }
    OthersEnd(packages[|packages|..], split);
    assert others + [] == others;
    works := [];
    WholeWorksAre(others, count);
    for i := 0 to |others|
      invariant works == WholeWorks(others, count)[..i]
    {
      works := works + [Work(i % count, others[i], None)];
    }
  }

  lemma OthersEnd(packages: Names, split: map<string, Names>)
    requires packages == []
    ensures Others(packages, split) == []
  {
  }

  lemma WholeWorksAre(others: Names, count: nat)
    requires count > 0
    ensures |WholeWorks(others, count)| == |others|
    ensures forall i :: 0 <= i < |others| ==> WholeWorks(others, count)[i] == Work(i % count, others[i], None)
  {
  }

  /** The last pass: number the commands, refusing one that is too long. */
  method Number(works: seq<Work>) returns (out: Option<seq<Task>>)
    ensures out.Some? <==> WorksFit(works)
    ensures out.Some? ==> out.value == Numbered(works)
  {
    hide Fits;
    var tasks := [];
    for i := 0 to |works|
      invariant tasks == Numbered(works)[..i]
      invariant forall j :: 0 <= j < i ==> WorkFits(works[j])
    {
      if !Fits(works[i].package, works[i].roots) {
        assert works[i] in works && !WorkFits(works[i]);
        return None;
      }
      tasks := tasks + [Task(i, works[i])];
    }
    return Some(tasks);
  }

  lemma SplitWorksStep(split: map<string, Names>, names: Names, count: nat, i: nat)
    requires count > 0 && i <= |names| && forall p <- names :: p in split
    ensures i < |names| ==>
              SplitWorks(split, names[i..], count) == PackageWorks(names[i], split[names[i]], count,
                  0) + SplitWorks(split, names[i + 1..], count)
    ensures i == |names| ==> SplitWorks(split, names[i..], count) == []
  {
    hide PackageWorks;
    if i < |names| {
      assert names[i..][0] == names[i] && names[i..][1..] == names[i + 1..];
    }
  }

  lemma AllWorksAre(packages: Names, split: map<string, Names>, count: nat)
    requires count > 0
    ensures AllWorks(packages, split, count)
         == WholeWorks(Others(packages, split), count) + SplitWorks(split, Listed(split.Keys), count)
  {
    hide WholeWorks, Others, SplitWorks, Listed;
  }

  lemma FittingIs(packages: Names, split: map<string, Names>)
    ensures Fitting(packages, split) <==> WholesAllFit(packages, split) && forall p <- split :: AllFitAlone(p, split[p])
  {
    hide AllFitAlone, Fits;
  }

  predicate WholesAllFit(packages: Names, split: map<string, Names>) {
    forall p <- packages :: IsWhole(split, p) ==> Fits(p, None)
  }

  predicate WorksFit(works: seq<Work>) {
    forall w <- works :: WorkFits(w)
  }

  /** The whole inventory of commands, or a refusal when a command cannot fit. */
  method MakeTasks(packages: Names, split: map<string, Names>, count: nat) returns (out: Option<seq<Task>>)
    requires count > 0
    ensures out.Some? <==> Fitting(packages, split)
    ensures out.Some? ==> out.value == Numbered(AllWorks(packages, split, count))
  {
    hide *;
    var works := DealWhole(packages, split, count);
    var names := Listed(split.Keys);
    ghost var whole := works;
    assert names[0..] == names;
    FittingIs(packages, split);
    for i := 0 to |names|
      invariant forall j :: 0 <= j < i ==> AllFitAlone(names[j], split[names[j]])
      invariant works + SplitWorks(split, names[i..], count) == whole + SplitWorks(split, names, count)
    {
      var more := SplitPackage(names[i], split[names[i]], count);
      if more == None {
        assert names[i] in split && !AllFitAlone(names[i], split[names[i]]);
        return None;
      }
      SplitWorksStep(split, names, count, i);
      assert works + (more.value + SplitWorks(split, names[i + 1..], count))
        == works + more.value + SplitWorks(split, names[i + 1..], count);
      works := works + more.value;
    }
    SplitWorksStep(split, names, count, |names|);
    assert works + [] == works;
    AllWorksAre(packages, split, count);
    SplitsFit(split, names);
    AllFit(packages, split, count);
    WholesFit(packages, split, count);
    out := Number(works);
  }

  lemma SplitsFit(split: map<string, Names>, names: Names)
    requires names == Listed(split.Keys)
    requires forall j :: 0 <= j < |names| ==> AllFitAlone(names[j], split[names[j]])
    ensures forall p <- split :: AllFitAlone(p, split[p])
  {
    forall p | p in split
      ensures AllFitAlone(p, split[p])
    {
      assert p in names;
    }
  }

  lemma {:induction false} OthersHold(packages: Names, split: map<string, Names>)
    ensures forall p :: p in Others(packages, split) <==> p in packages && IsWhole(split, p)
  {
    if packages != [] {
      OthersHold(packages[1..], split);
    }
  }

  predicate WorkFits(w: Work) { Fits(w.package, w.roots) }

  lemma {:induction false} BatchesFit(shard: nat, package: string, batches: seq<Names>)
    requires forall b <- batches :: Fits(package, Some(b))
    ensures forall w <- BatchWorks(shard, package, batches) :: WorkFits(w)
  {
    hide Fits;
    if batches != [] {
      BatchesFit(shard, package, batches[1..]);
    }
  }

  lemma {:induction false} PackageFits(package: string, roots: Names, count: nat, shard: nat)
    requires count > 0 && AllFitAlone(package, roots)
    ensures forall w <- PackageWorks(package, roots, count, shard) :: WorkFits(w)
    decreases count - shard
  {
    hide Fits, FitsAlone, Stride, BatchWorks, Batches, WorkFits;
    if shard < count {
      PackageFits(package, roots, count, shard + 1);
      StrideInside(roots, shard, count);
      BatchesHold(package, [], Stride(roots, shard, count));
      BatchesFit(shard, package, Batches(package, [], Stride(roots, shard, count)));
    }
  }

  lemma {:induction false} SplitFits(split: map<string, Names>, names: Names, count: nat)
    requires count > 0 && forall p <- names :: p in split && AllFitAlone(p, split[p])
    ensures forall w <- SplitWorks(split, names, count) :: WorkFits(w)
  {
    hide AllFitAlone, WorkFits, PackageWorks;
    if names != [] {
      PackageFits(names[0], split[names[0]], count, 0);
      SplitFits(split, names[1..], count);
    }
  }

  lemma AllFit(packages: Names, split: map<string, Names>, count: nat)
    requires count > 0
    ensures Fitting(packages, split) ==> WorksFit(AllWorks(packages, split, count))
  {
    hide AllFitAlone, Fits, SplitWorks;
    OthersHold(packages, split);
    if Fitting(packages, split) {
      SplitFits(split, Listed(split.Keys), count);
    }
  }

  lemma WholesFit(packages: Names, split: map<string, Names>, count: nat)
    requires count > 0
    ensures WorksFit(AllWorks(packages, split, count)) ==> WholesAllFit(packages, split)
  {
    hide Fits, SplitWorks;
    OthersHold(packages, split);
    forall p | p in packages && IsWhole(split, p)
      ensures exists w :: w in AllWorks(packages, split, count) && w.package == p && w.roots == None
    {
      var others := Others(packages, split);
      assert p in others;
      var i :| 0 <= i < |others| && others[i] == p;
      assert WholeWorks(others, count)[i] == Work(i % count, p, None);
      assert AllWorks(packages, split, count)[i] == Work(i % count, p, None);
      assert Work(i % count, p, None) in AllWorks(packages, split, count);
    }
    assert forall w: Work :: WorkFits(w) <==> Fits(w.package, w.roots);
  }

  // ---------------------------------------------------------------- the inventory is complete

  /** The roots the commands of a package name, with multiplicity. */
  function Gathered(works: seq<Work>, package: string): multiset<string> {
    if works == [] then multiset{} else NamedBy(works[0], package) + Gathered(works[1..], package)
  }

  function NamedBy(w: Work, package: string): multiset<string> {
    if w.package == package && w.roots.Some? then multiset(w.roots.value) else multiset{}
  }

  lemma Regroup(x: multiset<string>, y: multiset<string>, z: multiset<string>)
    ensures x + (y + z) == (x + y) + z
  {
  }

  lemma GatheredStart(w: Work, rest: seq<Work>, package: string)
    ensures Gathered([w] + rest, package) == NamedBy(w, package) + Gathered(rest, package)
  {
    var all := [w] + rest;
    assert all[0] == w && all[1..] == rest;
    hide NamedBy;
    assert Gathered(all, package) == NamedBy(all[0], package) + Gathered(all[1..], package);
  }

  lemma GatheredEmpty(package: string)
    ensures Gathered([], package) == multiset{}
  {
  }

  lemma {:induction false} GatheredJoin(a: seq<Work>, b: seq<Work>, package: string)
    ensures Gathered(a + b, package) == Gathered(a, package) + Gathered(b, package)
  {
    hide *;
    if a == [] {
      assert a + b == b;
      GatheredEmpty(package);
    } else {
      var w, rest := a[0], a[1..];
      GatheredJoin(rest, b, package);
      GatheredStart(w, rest + b, package);
      GatheredStart(w, rest, package);
      assert [w] + (rest + b) == a + b;
      assert [w] + rest == a;
      Regroup(NamedBy(w, package), Gathered(rest, package), Gathered(b, package));
    }
  }

  lemma {:induction false} GatheredBatches(shard: nat, package: string, batches: seq<Names>)
    ensures Gathered(BatchWorks(shard, package, batches), package) == multiset(Flat(batches))
  {
    if batches != [] {
      GatheredBatches(shard, package, batches[1..]);
      var all := BatchWorks(shard, package, batches);
      assert all[1..] == BatchWorks(shard, package, batches[1..]);
      assert NamedBy(all[0], package) == multiset(batches[0]);
    }
  }

  /** The names in the strides from `lo` up to `hi`. */
  function Window(roots: Names, lo: nat, hi: nat, count: nat): multiset<string>
    requires count > 0
    decreases hi - lo
  {
    if lo >= hi then multiset{} else multiset(Stride(roots, lo, count)) + Window(roots, lo + 1, hi, count)
  }

  lemma {:induction false} WindowEnd(roots: Names, lo: nat, hi: nat, count: nat)
    requires count > 0 && lo <= hi
    ensures Window(roots, lo, hi + 1, count) == Window(roots, lo, hi, count) + multiset(Stride(roots, hi, count))
    decreases hi - lo
  {
    hide Stride;
    if lo < hi {
      WindowEnd(roots, lo + 1, hi, count);
    } else {
      assert Window(roots, lo + 1, hi + 1, count) == multiset{};
    }
  }

  /** `count` neighbouring strides hold exactly the names from the first of them on. */
  lemma {:induction false} WindowIsAll(roots: Names, lo: nat, count: nat)
    requires count > 0 && lo <= |roots|
    ensures Window(roots, lo, lo + count, count) == multiset(roots[lo..])
    decreases |roots| - lo
  {
    hide *;
    if lo == |roots| {
      WindowEmpty(roots, lo, lo + count, count);
      assert roots[lo..] == [];
    } else {
      WindowIsAll(roots, lo + 1, count);
      WindowMoves(roots, lo, count);
    }
  }

  lemma WindowMoves(roots: Names, lo: nat, count: nat)
    requires count > 0 && lo < |roots|
    requires Window(roots, lo + 1, lo + 1 + count, count) == multiset(roots[lo + 1..])
    ensures Window(roots, lo, lo + count, count) == multiset(roots[lo..])
  {
    hide *;
    var far := Stride(roots, lo + count, count);
    var near := Window(roots, lo + 1, lo + count, count);
    var rest := roots[lo + 1..];
    WindowEnd(roots, lo + 1, lo + count, count);
    WindowStart(roots, lo, lo + count, count);
    StrideStart(roots, lo, count);
    assert [roots[lo]] + rest == roots[lo..];
    Swapped(roots[lo], far, near, rest);
  }

  lemma Swapped(n: string, far: Names, near: multiset<string>, rest: Names)
    requires near + multiset(far) == multiset(rest)
    ensures multiset([n] + far) + near == multiset([n] + rest)
  {
    StartOf(n, far);
    StartOf(n, rest);
    var x, y := multiset{n}, multiset(far);
    assert (x + y) + near == x + (near + y);
  }

  lemma StartOf(n: string, rest: Names)
    ensures multiset([n] + rest) == multiset{n} + multiset(rest)
  {
  }

  lemma StrideStart(roots: Names, lo: nat, count: nat)
    requires count > 0 && lo < |roots|
    ensures Stride(roots, lo, count) == [roots[lo]] + Stride(roots, lo + count, count)
  {
  }

  lemma WindowStart(roots: Names, lo: nat, hi: nat, count: nat)
    requires count > 0 && lo < hi
    ensures Window(roots, lo, hi, count) == multiset(Stride(roots, lo, count)) + Window(roots, lo + 1, hi, count)
  {
  }

  lemma {:induction false} WindowEmpty(roots: Names, lo: nat, hi: nat, count: nat)
    requires count > 0 && |roots| <= lo
    ensures Window(roots, lo, hi, count) == multiset{}
    decreases hi - lo
  {
    if lo < hi {
      WindowEmpty(roots, lo + 1, hi, count);
      assert Stride(roots, lo, count) == [];
    }
  }

  lemma PackageWorksStep(package: string, roots: Names, count: nat, shard: nat)
    requires count > 0
    ensures shard < count ==>
              PackageWorks(package, roots, count, shard) == ShardWorks(package, roots, count,
                  shard) + PackageWorks(package, roots, count, shard + 1)
    ensures ShardWorks(package, roots, count, shard) == BatchWorks(shard, package, Batches(package, [], Stride(roots, shard, count)))
    ensures shard >= count ==>
              PackageWorks(package, roots, count, shard) == [] && Window(roots, shard, count, count) == multiset{}
  {
    hide Batches, BatchWorks, Stride;
  }

  lemma StrideFits(package: string, roots: Names, shard: nat, count: nat)
    requires count > 0 && AllFitAlone(package, roots)
    ensures AllFitAlone(package, Stride(roots, shard, count))
  {
    hide FitsAlone, Stride;
    StrideInside(roots, shard, count);
  }

  lemma {:induction false} GatheredPackage(package: string, roots: Names, count: nat, shard: nat)
    requires count > 0 && AllFitAlone(package, roots)
    ensures Gathered(PackageWorks(package, roots, count, shard), package) == Window(roots, shard, count, count)
    decreases count - shard
  {
    hide *;
    PackageWorksStep(package, roots, count, shard);
    if shard < count {
      var names := Stride(roots, shard, count);
      StrideFits(package, roots, shard, count);
      BatchesHold(package, [], names);
      assert [] + names == names;
      GatheredBatches(shard, package, Batches(package, [], names));
      GatheredPackage(package, roots, count, shard + 1);
      GatheredJoin(ShardWorks(package, roots, count, shard), PackageWorks(package, roots, count, shard + 1), package);
      WindowStart(roots, shard, count, count);
    } else {
      GatheredEmpty(package);
    }
  }

  predicate FromPackage(w: Work, package: string, roots: Names) {
    w.package == package && w.roots.Some? && roots != []
  }

  lemma {:induction false} BatchWorksFrom(shard: nat, package: string, batches: seq<Names>)
    ensures forall w <- BatchWorks(shard, package, batches) :: w.package == package && w.roots.Some? && batches != []
  {
    if batches != [] {
      BatchWorksFrom(shard, package, batches[1..]);
    }
  }

  lemma {:induction false} PackageWorksFrom(package: string, roots: Names, count: nat, shard: nat)
    requires count > 0
    ensures forall w <- PackageWorks(package, roots, count, shard) :: FromPackage(w, package, roots)
    decreases count - shard
  {
    hide BatchWorks;
    if shard < count {
      PackageWorksFrom(package, roots, count, shard + 1);
      var names := Stride(roots, shard, count);
      BatchWorksFrom(shard, package, Batches(package, [], names));
      assert roots == [] ==> names == [];
    }
  }

  predicate FromSplit(w: Work, split: map<string, Names>, names: Names) {
    w.package in names && w.package in split && split[w.package] != [] && w.roots.Some?
  }

  lemma {:induction false} SplitWorksFrom(split: map<string, Names>, names: Names, count: nat)
    requires count > 0 && forall p <- names :: p in split
    ensures forall w <- SplitWorks(split, names, count) :: FromSplit(w, split, names)
  {
    hide PackageWorks;
    if names != [] {
      SplitWorksFrom(split, names[1..], count);
      PackageWorksFrom(names[0], split[names[0]], count, 0);
    }
  }

  lemma {:induction false} GatheredNone(works: seq<Work>, package: string)
    requires forall w <- works :: w.package != package || w.roots.None?
    ensures Gathered(works, package) == multiset{}
  {
    if works != [] {
      GatheredNone(works[1..], package);
    }
  }

  lemma {:induction false} GatheredSplit(split: map<string, Names>, names: Names, count: nat, package: string)
    requires count > 0 && Ascending(names) && forall p <- names :: p in split && AllFitAlone(p, split[p])
    ensures Gathered(SplitWorks(split, names, count), package)
         == if package in names then multiset(split[package]) else multiset{}
  {
    hide PackageWorks, Gathered, AllFitAlone, FitsAlone, Window;
    if names == [] {
      GatheredNone([], package);
    } else {
      var rest := names[1..];
      GatheredJoin(PackageWorks(names[0], split[names[0]], count, 0), SplitWorks(split, rest, count), package);
      GatheredSplit(split, rest, count, package);
      if package == names[0] {
        GatheredPackage(package, split[package], count, 0);
        WindowIsAll(split[package], 0, count);
        assert split[package][0..] == split[package];
        forall q | q in rest ensures q != package { LessTotal(q, package); }
      } else {
        PackageWorksFrom(names[0], split[names[0]], count, 0);
        GatheredNone(PackageWorks(names[0], split[names[0]], count, 0), package);
      }
    }
  }

  /** Every discovered root of a split package is named by exactly one command. */
  lemma EveryRootOnce(packages: Names, split: map<string, Names>, count: nat, package: string)
    requires count > 0 && Fitting(packages, split)
    ensures Gathered(AllWorks(packages, split, count), package)
         == if package in split then multiset(split[package]) else multiset{}
  {
    hide Gathered, SplitWorks, Others;
    var names := Listed(split.Keys);
    var whole := WholeWorks(Others(packages, split), count);
    GatheredJoin(whole, SplitWorks(split, names, count), package);
    GatheredNone(whole, package);
    GatheredSplit(split, names, count, package);
  }

  /** The one command of a package that runs whole. */
  predicate OnlyWork(works: seq<Work>, package: string, k: nat) {
    && k < |works| && works[k].package == package && works[k].roots == None
    && forall i :: 0 <= i < |works| && i != k ==> works[i].package != package
  }

  lemma {:induction false} OthersAscending(packages: Names, split: map<string, Names>)
    requires Ascending(packages)
    ensures Ascending(Others(packages, split))
  {
    if packages != [] {
      var rest := Others(packages[1..], split);
      OthersAscending(packages[1..], split);
      OthersHold(packages[1..], split);
      forall q | q in rest ensures Less(packages[0], q) {
        assert q in packages[1..];
      }
      hide Others, Less;
      OthersStart(packages, split);
    }
  }

  lemma OthersStart(packages: Names, split: map<string, Names>)
    requires packages != []
    ensures Others(packages, split) == (if IsWhole(split, packages[0]) then [packages[0]] else []) + Others(packages[1..], split)
  {
  }

  lemma EveryPackageOnce(packages: Names, split: map<string, Names>, count: nat, package: string) returns (k: nat)
    requires count > 0 && Ascending(packages)
    requires package in packages && IsWhole(split, package)
    ensures OnlyWork(AllWorks(packages, split, count), package, k)
  {
    hide SplitWorks, Others;
    var others := Others(packages, split);
    OthersHold(packages, split);
    OthersAscending(packages, split);
    var i :| 0 <= i < |others| && others[i] == package;
    k := i;
    var works := AllWorks(packages, split, count);
    var tail := SplitWorks(split, Listed(split.Keys), count);
    SplitWorksFrom(split, Listed(split.Keys), count);
    forall j | 0 <= j < |works| && j != k
      ensures works[j].package != package
    {
      if j < |others| {
        assert works[j].package == others[j];
        LessTotal(others[j], others[k]);
      } else {
        assert works[j] == tail[j - |others|];
        assert FromSplit(works[j], split, Listed(split.Keys));
      }
    }
  }

  lemma WorkOfSplit(packages: Names, split: map<string, Names>, count: nat, w: Work)
    requires count > 0 && w in AllWorks(packages, split, count)
    ensures w.roots.Some? <==> w.package in split && split[w.package] != []
  {
    hide SplitWorks, Others;
    OthersHold(packages, split);
    SplitWorksFrom(split, Listed(split.Keys), count);
    var others := Others(packages, split);
    if w in WholeWorks(others, count) {
      var i: nat :| i < |others| && WholeWorks(others, count)[i] == w;
      assert others[i] in others && IsWhole(split, w.package);
    } else {
      assert FromSplit(w, split, Listed(split.Keys));
    }
  }

  // ---------------------------------------------------------------- validation

  datatype Identity = Identity(commit: string, toolchain: string)

  datatype Plan = Plan(schema: nat, shards: int, identity: Identity, packages: Names, split: map<string, Names>, tasks: seq<Task>)

  predicate SortedOnce(names: Names) {
    names == Listed(set n | n in names)
  }

  predicate ValidPlan(plan: Plan) {
    && plan.schema == 1 && 1 <= plan.shards <= 16
    && plan.packages != [] && SortedOnce(plan.packages)
    && (forall p <- plan.split :: p in plan.packages && SortedOnce(plan.split[p]))
    && Fitting(plan.packages, plan.split)
    && plan.tasks == Numbered(AllWorks(plan.packages, plan.split, plan.shards))
  }

  function Of(works: seq<Work>, package: string): seq<Work> {
    if works == [] then []
    else (if works[0].package == package then [works[0]] else []) + Of(works[1..], package)
  }

  lemma {:induction false} OfOnly(works: seq<Work>, package: string, k: nat)
    requires OnlyWork(works, package, k)
    ensures Of(works, package) == [works[k]]
  {
    if k > 0 {
      OfOnly(works[1..], package, k - 1);
    } else {
      OfNone(works[1..], package);
    }
  }

  lemma {:induction false} OfNone(works: seq<Work>, package: string)
    requires forall w <- works :: w.package != package
    ensures Of(works, package) == []
  {
    if works != [] {
      OfNone(works[1..], package);
    }
  }

  /** The final recount of the plan. */
  predicate Recounted(plan: Plan, works: seq<Work>, package: string) {
    if !IsWhole(plan.split, package) then Gathered(works, package) == multiset(plan.split[package])
    else |Of(works, package)| == 1 && Of(works, package)[0].roots == None
  }

  /** A plan is accepted exactly when its tasks are the planner's own; the recount never refuses. */
  method ValidatePlan(plan: Plan) returns (valid: bool)
    ensures valid <==> ValidPlan(plan)
  {
    hide Fitting, AllWorks, Gathered, Of, SortedOnce, Numbered;
    if plan.schema != 1 || plan.shards < 1 || plan.shards > 16 {
      return false;
    }
    if plan.packages == [] || !SortedOnce(plan.packages) || exists p <- plan.split :: p !in plan.packages {
      return false;
    }
    if exists p <- plan.split :: !SortedOnce(plan.split[p]) {
      return false;
    }
    var expected := MakeTasks(plan.packages, plan.split, plan.shards);
    if expected == None || plan.tasks != expected.value {
      return false;
    }
    var works := AllWorks(plan.packages, plan.split, plan.shards);
    for i := 0 to |plan.packages| {
      var package := plan.packages[i];
      RecountPasses(plan, package);
      if !Recounted(plan, works, package) {
        return false;
      }
    }
    return true;
  }

  lemma RecountPasses(plan: Plan, package: string)
    requires ValidPlan(plan) && package in plan.packages
    ensures Recounted(plan, AllWorks(plan.packages, plan.split, plan.shards), package)
  {
    hide Fitting, AllWorks, Gathered, Of, Listed;
    if IsWhole(plan.split, package) {
      var k := EveryPackageOnce(plan.packages, plan.split, plan.shards, package);
      OfOnly(AllWorks(plan.packages, plan.split, plan.shards), package, k);
    } else {
      EveryRootOnce(plan.packages, plan.split, plan.shards, package);
    }
  }
}
