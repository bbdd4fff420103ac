/**
 The bounded symlink resolver of internal/agentmcp/read.go.

 An absolute path is the list of its components below the root. A link's target is
 kept as written, with its empty, `.` and `..` components.
 */
module Symlinks {
  import opened Options

  type Path = seq<string>

  datatype Node = Entry | Link(absolute: bool, target: Path)

  type Fs = map<Path, Node>

  predicate Skipped(name: string) { name == "" || name == "." }

  predicate Named(name: string) { !Skipped(name) && name != ".." }

  predicate Proper(p: Path) { forall n <- p :: Named(n) }

  function Up(base: Path): Path { if base == [] then [] else base[..|base| - 1] }

  /** Lexical cleaning: `..` drops the component before it, whatever that is. */
  function CleanOnto(base: Path, more: Path): Path
    decreases |more|
  {
    if more == [] then base
    else if Skipped(more[0]) then CleanOnto(base, more[1..])
    else if more[0] == ".." then CleanOnto(Up(base), more[1..])
    else CleanOnto(base + [more[0]], more[1..])
  }

  lemma {:induction false} CleanIsProper(base: Path, more: Path)
    requires Proper(base)
    ensures Proper(CleanOnto(base, more))
    decreases |more|
  {
    if more != [] {
      if Skipped(more[0]) {
        CleanIsProper(base, more[1..]);
      } else if more[0] == ".." {
        CleanIsProper(Up(base), more[1..]);
      } else {
        CleanIsProper(base + [more[0]], more[1..]);
      }
    }
  }

  lemma {:induction false} CleanNamed(base: Path, more: Path)
    requires Proper(more)
    ensures CleanOnto(base, more) == base + more
    decreases |more|
  {
    if more == [] {
      assert base + more == base;
    } else {
      assert more[0] in more;
      CleanNamed(base + [more[0]], more[1..]);
      assert base + [more[0]] + more[1..] == base + more;
    }
  }

  // ---------------------------------------------------------------- one hop

  /** What looking at the prefixes of a path, shortest first, meets. */
  datatype Look = Clear | Absent | LinkAt(index: nat)

  function LookFrom(fs: Fs, path: Path, i: nat): (l: Look)
    requires i <= |path|
    ensures l.LinkAt? ==> i <= l.index < |path| && path[..l.index + 1] in fs && fs[path[..l.index + 1]].Link?
    decreases |path| - i
  {
    if i == |path| then Clear
    else if path[..i + 1] !in fs then Absent
    else if fs[path[..i + 1]].Link? then LinkAt(i)
    else LookFrom(fs, path, i + 1)
  }

  /** No prefix of the path is a link, and every one exists. */
  predicate LinkFree(fs: Fs, path: Path) {
    forall i :: 0 < i <= |path| ==> path[..i] in fs && fs[path[..i]].Entry?
  }

  lemma {:induction false} LookIs(fs: Fs, path: Path, i: nat)
    requires i <= |path|
    ensures LookFrom(fs, path, i) == Clear <==> forall k :: i < k <= |path| ==> path[..k] in fs && fs[path[..k]].Entry?
    ensures LookFrom(fs, path, i).LinkAt? ==>
              forall k :: i < k <= LookFrom(fs, path, i).index ==> path[..k] in fs && fs[path[..k]].Entry?
    decreases |path| - i
  {
    if i < |path| {
      LookIs(fs, path, i + 1);
    }
  }

  /** The path after replacing its first link by the target, cleaned lexically. */
  function Followed(fs: Fs, path: Path, i: nat): Path
    requires i < |path| && path[..i + 1] in fs && fs[path[..i + 1]].Link?
  {
    var link := fs[path[..i + 1]];
    CleanOnto(CleanOnto(if link.absolute then [] else path[..i], link.target), path[i + 1..])
  }

  function Hop(fs: Fs, path: Path): Option<Path> {
    var l := LookFrom(fs, path, 0);
    if l.LinkAt? then Some(Followed(fs, path, l.index)) else None
  }

  /** The path after exactly `n` links. */
  function Hops(fs: Fs, path: Path, n: nat): Option<Path>
    decreases n
  {
    if n == 0 then Some(path)
    else
      var next := Hop(fs, path);
      if next == None then None else Hops(fs, next.value, n - 1)
  }

  // ---------------------------------------------------------------- the resolver

  datatype Outcome = Resolved(path: Path) | NotFound | TooManyLinks

  function Resolve(fs: Fs, path: Path, limit: nat, followed: nat): Outcome
    requires followed <= limit
    decreases limit - followed
  {
    match LookFrom(fs, path, 0)
    case Clear => Resolved(path)
    case Absent => NotFound
    case LinkAt(i) => if followed >= limit then TooManyLinks else Resolve(fs, Followed(fs, path, i), limit, followed + 1)
  }

  method ResolveSymlinkPath(fs: Fs, path: Path, limit: nat, followed: nat) returns (r: Outcome)
    requires followed <= limit
    ensures r == Resolve(fs, path, limit, followed)
    decreases limit - followed
  {
    hide CleanOnto;
    var current: Path := [];
    for index := 0 to |path|
      invariant current == path[..index]
      invariant LookFrom(fs, path, index) == LookFrom(fs, path, 0)
    {
      var candidate := current + [path[index]];
      assert candidate == path[..index + 1];
      if candidate !in fs {
        return NotFound;
      }
      if fs[candidate].Entry? {
        current := candidate;
        continue;
      }
      if followed >= limit {
        return TooManyLinks;
      }
      var link := fs[candidate];
      var target := CleanOnto(if link.absolute then [] else current, link.target);
      if index + 1 < |path| {
        target := CleanOnto(target, path[index + 1..]);
      } else {
        NothingToAdd(target, path[index + 1..]);
      }
      assert target == Followed(fs, path, index);
      r := ResolveSymlinkPath(fs, target, limit, followed + 1);
      return;
    }
    assert current == path;
    return Resolved(current);
  }

  lemma NothingToAdd(base: Path, more: Path)
    requires more == []
    ensures CleanOnto(base, more) == base
  {
  }

  /** The entry point: the name is made absolute against the working directory and cleaned. */
  method ResolveBoundedSymlinks(fs: Fs, cwd: Path, absolute: bool, name: Path, limit: nat) returns (r: Outcome)
    requires Proper(cwd)
    ensures r == Resolve(fs, CleanOnto(if absolute then [] else cwd, name), limit, 0)
    ensures r.Resolved? ==> LinkFree(fs, r.path) && Proper(r.path)
    ensures r.Resolved? <==> Reaches(fs, CleanOnto(if absolute then [] else cwd, name), limit)
    ensures r.TooManyLinks? <==> Hops(fs, CleanOnto(if absolute then [] else cwd, name), limit + 1).Some?
  {
    hide CleanOnto;
    var start := CleanOnto(if absolute then [] else cwd, name);
    r := ResolveSymlinkPath(fs, start, limit, 0);
    CleanIsProper(if absolute then [] else cwd, name);
    ResolveMeans(fs, start, limit, 0);
    if r.Resolved? {
      var n := LinksOf(fs, start, limit, 0);
      HopsProper(fs, start, n);
      LookIs(fs, r.path, 0);
    }
  }

  /** After `n` links the path has no link left. */
  predicate EndsAt(fs: Fs, path: Path, n: nat) {
    Hops(fs, path, n).Some? && LookFrom(fs, Hops(fs, path, n).value, 0) == Clear
  }

  /** Some number of links, at most `most`, leads to a path with no link left. */
  ghost predicate Reaches(fs: Fs, path: Path, most: nat) {
    exists n: nat :: n <= most && EndsAt(fs, path, n)
  }

  lemma {:induction false} HopsProper(fs: Fs, path: Path, n: nat)
    requires Proper(path)
    ensures Hops(fs, path, n).Some? ==> Proper(Hops(fs, path, n).value)
    decreases n
  {
    if n > 0 && Hop(fs, path).Some? {
      var i := LookFrom(fs, path, 0).index;
      var link := fs[path[..i + 1]];
      CleanIsProper(if link.absolute then [] else path[..i], link.target);
      CleanIsProper(CleanOnto(if link.absolute then [] else path[..i], link.target), path[i + 1..]);
      HopsProper(fs, Hop(fs, path).value, n - 1);
    }
  }

  /** How many links a successful resolution followed. */
  lemma {:induction false} LinksOf(fs: Fs, path: Path, limit: nat, followed: nat) returns (n: nat)
    requires followed <= limit && Resolve(fs, path, limit, followed).Resolved?
    ensures n <= limit - followed && Hops(fs, path, n) == Some(Resolve(fs, path, limit, followed).path)
    ensures EndsAt(fs, path, n)
    decreases limit - followed
  {
    hide CleanOnto;
    var l := LookFrom(fs, path, 0);
    if l == Clear {
      n := 0;
    } else {
      var m := LinksOf(fs, Followed(fs, path, l.index), limit, followed + 1);
      n := m + 1;
    }
  }

  /** Resolving succeeds exactly when a link-free path is reached in time, and refuses exactly when one more link remains. */
  lemma {:induction false} ResolveMeans(fs: Fs, path: Path, limit: nat, followed: nat)
    requires followed <= limit
    ensures Resolve(fs, path, limit, followed).Resolved? <==> Reaches(fs, path, limit - followed)
    ensures Resolve(fs, path, limit, followed).TooManyLinks? <==> Hops(fs, path, limit - followed + 1).Some?
    ensures forall n: nat :: n <= limit - followed && EndsAt(fs, path, n) ==>
              Resolve(fs, path, limit, followed) == Resolved(Hops(fs, path, n).value)
    decreases limit - followed
  {
    hide CleanOnto;
    var l := LookFrom(fs, path, 0);
    var left: nat := limit - followed;
    if l.LinkAt? {
      var next := Followed(fs, path, l.index);
      assert Hops(fs, path, left + 1) == Hops(fs, next, left);
      forall n: nat
        ensures EndsAt(fs, path, n) <==> n > 0 && EndsAt(fs, next, n - 1)
      {
        EndsLater(fs, path, next, n);
      }
      if followed < limit {
        ResolveMeans(fs, next, limit, followed + 1);
        if exists m: nat :: m <= left - 1 && EndsAt(fs, next, m) {
          var m: nat :| m <= left - 1 && EndsAt(fs, next, m);
          assert EndsAt(fs, path, m + 1);
        }
        forall n: nat | n <= left && EndsAt(fs, path, n)
          ensures Resolve(fs, path, limit, followed) == Resolved(Hops(fs, path, n).value)
        {
          assert EndsAt(fs, next, n - 1);
          assert Hops(fs, path, n) == Hops(fs, next, n - 1);
        }
      }
    } else {
      assert EndsAt(fs, path, 0) <==> l == Clear;
    }
  }

  lemma EndsLater(fs: Fs, path: Path, next: Path, n: nat)
    requires Hop(fs, path) == Some(next)
    ensures EndsAt(fs, path, n) <==> n > 0 && EndsAt(fs, next, n - 1)
  {
    hide CleanOnto;
    if n > 0 {
      assert Hops(fs, path, n) == Hops(fs, next, n - 1);
    }
  }

  /** A successful answer has no link among its prefixes. */
  lemma ResolvedIsLinkFree(fs: Fs, path: Path, limit: nat)
    requires Resolve(fs, path, limit, 0).Resolved?
    ensures LinkFree(fs, Resolve(fs, path, limit, 0).path)
    ensures exists n: nat :: n <= limit && Hops(fs, path, n) == Some(Resolve(fs, path, limit, 0).path)
  {
    var n := LinksOf(fs, path, limit, 0);
    LookIs(fs, Resolve(fs, path, limit, 0).path, 0);
  }

  /** Raising the limit changes nothing about an answer that was not a refusal for too many links. */
  lemma {:induction false} LimitOnlyRefuses(fs: Fs, path: Path, limit: nat, more: nat, followed: nat)
    requires followed <= limit <= more
    ensures !Resolve(fs, path, limit, followed).TooManyLinks? ==>
              Resolve(fs, path, more, followed) == Resolve(fs, path, limit, followed)
    decreases limit - followed
  {
    hide CleanOnto;
    var l := LookFrom(fs, path, 0);
    if l.LinkAt? && followed < limit {
      LimitOnlyRefuses(fs, Followed(fs, path, l.index), limit, more, followed + 1);
    }
  }

  lemma {:induction false} HopsSplit(fs: Fs, path: Path, m: nat, n: nat)
    ensures Hops(fs, path, m + n) == if Hops(fs, path, m) == None then None else Hops(fs, Hops(fs, path, m).value, n)
    decreases m
  {
    if m > 0 && Hop(fs, path).Some? {
      HopsSplit(fs, Hop(fs, path).value, m - 1, n);
    }
  }

  /** A chain of links that comes back to a path it has been at is refused at every limit. */
  lemma CycleIsRefused(fs: Fs, path: Path, m: nat, n: nat, limit: nat)
    requires n > 0 && Hops(fs, path, m).Some? && Hops(fs, path, m + n) == Hops(fs, path, m)
    ensures Resolve(fs, path, limit, 0).TooManyLinks?
  {
    hide Hop, Resolve;
    var at := Hops(fs, path, m).value;
    HopsSplit(fs, path, m, n);
    Around(fs, at, n, limit + 1);
    HopsSplit(fs, path, m, limit + 1);
    assert m + (limit + 1) == (limit + 1) + m;
    HopsSplit(fs, path, limit + 1, m);
    ResolveMeans(fs, path, limit, 0);
  }

  lemma {:induction false} Around(fs: Fs, at: Path, n: nat, k: nat)
    requires n > 0 && Hops(fs, at, n) == Some(at)
    ensures Hops(fs, at, k).Some?
    decreases k
  {
    hide Hop;
    if k <= n {
      HopsSplit(fs, at, k, n - k);
    } else {
      Around(fs, at, n, k - n);
      HopsSplit(fs, at, n, k - n);
    }
  }

  // ---------------------------------------------------------------- against the system's own resolution

  /** How the system resolves a path: `..` leaves the directory actually reached. */
  function Walk(fs: Fs, current: Path, rest: Path, limit: nat): Option<Path>
    decreases limit, |rest|
  {
    if rest == [] then Some(current)
    else if Skipped(rest[0]) then Walk(fs, current, rest[1..], limit)
    else if rest[0] == ".." then Walk(fs, Up(current), rest[1..], limit)
    else
      var candidate := current + [rest[0]];
      if candidate !in fs then None
      else if fs[candidate].Entry? then Walk(fs, candidate, rest[1..], limit)
      else if limit == 0 then None
      else Walk(fs, if fs[candidate].absolute then [] else current, fs[candidate].target + rest[1..], limit - 1)
  }

  /** One step of the walk, by the kind of its first component. */
  lemma WalkStep(fs: Fs, current: Path, name: string, rest: Path, limit: nat)
    ensures Skipped(name) ==> Walk(fs, current, [name] + rest, limit) == Walk(fs, current, rest, limit)
    ensures name == ".." ==> Walk(fs, current, [name] + rest, limit) == Walk(fs, Up(current), rest, limit)
    ensures Named(name) ==>
              var candidate := current + [name];
              Walk(fs, current, [name] + rest, limit) ==
                if candidate !in fs then None
                else if fs[candidate].Entry? then Walk(fs, candidate, rest, limit)
                else if limit == 0 then None
                else Walk(fs, if fs[candidate].absolute then [] else current, fs[candidate].target + rest, limit - 1)
  {
    var all := [name] + rest;
    assert all[0] == name && all[1..] == rest;
  }

  lemma NameKinds(name: string)
    ensures Named(name) <==> !Skipped(name) && name != ".."
    ensures name == ".." ==> !Skipped(name)
  {
  }

  /** Where a walk has got to, and how many links it may still follow. */
  datatype Place = Place(path: Path, left: nat)

  function Reach(fs: Fs, current: Path, rest: Path, limit: nat): Option<Place>
    decreases limit, |rest|
  {
    if rest == [] then Some(Place(current, limit))
    else if Skipped(rest[0]) then Reach(fs, current, rest[1..], limit)
    else if rest[0] == ".." then Reach(fs, Up(current), rest[1..], limit)
    else
      var candidate := current + [rest[0]];
      if candidate !in fs then None
      else if fs[candidate].Entry? then Reach(fs, candidate, rest[1..], limit)
      else if limit == 0 then None
      else Reach(fs, if fs[candidate].absolute then [] else current, fs[candidate].target + rest[1..], limit - 1)
  }

  /** A walk goes on from where its first part ends. */
  lemma {:induction false} WalkJoin(fs: Fs, current: Path, front: Path, rest: Path, limit: nat)
    ensures Walk(fs, current, front + rest, limit) ==
            match Reach(fs, current, front, limit)
            case None => None
            case Some(at) => Walk(fs, at.path, rest, at.left)
    decreases limit, |front|
  {
    if front == [] {
      assert front + rest == rest;
    } else {
      var name, more := front[0], front[1..];
      assert front + rest == [name] + (more + rest);
      WalkStep(fs, current, name, more + rest, limit);
      var candidate := current + [name];
      if Skipped(name) {
        WalkJoin(fs, current, more, rest, limit);
      } else if name == ".." {
        WalkJoin(fs, Up(current), more, rest, limit);
      } else if candidate in fs && fs[candidate].Entry? {
        WalkJoin(fs, candidate, more, rest, limit);
      } else if candidate in fs && limit > 0 {
        var link := fs[candidate];
        assert link.target + (more + rest) == link.target + more + rest;
        WalkJoin(fs, if link.absolute then [] else current, link.target + more, rest, limit - 1);
      }
    }
  }

  /** What `..` drops, where the walk stands when it comes to it. */
  datatype Drop = Fine | Missing | ThroughLink

  function Dropped(fs: Fs, at: Path, name: string): Drop {
    if at + [name] !in fs then Missing else if fs[at + [name]].Entry? then Fine else ThroughLink
  }

  /** The last of `kept`, walked to from `base`. */
  function LastDrop(fs: Fs, base: Path, kept: Path, limit: nat): Drop
    requires kept != []
  {
    match Reach(fs, base, Up(kept), limit)
    case None => Fine
    case Some(at) => Dropped(fs, at.path, kept[|kept| - 1])
  }

  /** Cleaning `more` after `kept` below `base`: the first component a `..` drops that is not an entry there, if any. */
  function Drops(fs: Fs, base: Path, kept: Path, more: Path, limit: nat): Drop
    decreases |more|
  {
    if more == [] then Fine
    else if Skipped(more[0]) then Drops(fs, base, kept, more[1..], limit)
    else if more[0] != ".." then Drops(fs, base, kept + [more[0]], more[1..], limit)
    else if kept == [] then Drops(fs, Up(base), [], more[1..], limit)
    else
      var d := LastDrop(fs, base, kept, limit);
      if d != Fine then d else Drops(fs, base, Up(kept), more[1..], limit)
  }

  /** The same over every link followed from `path`. */
  function FirstDrop(fs: Fs, path: Path, limit: nat): Drop
    decreases limit
  {
    var l := LookFrom(fs, path, 0);
    if !l.LinkAt? || limit == 0 then Fine
    else
      var link := fs[path[..l.index + 1]];
      var d := Drops(fs, if link.absolute then [] else path[..l.index], [], link.target, limit - 1);
      if d != Fine then d else FirstDrop(fs, Followed(fs, path, l.index), limit - 1)
  }

  predicate EntriesUpTo(fs: Fs, path: Path, i: nat)
    requires i <= |path|
  {
    forall k :: 0 < k <= i ==> path[..k] in fs && fs[path[..k]].Entry?
  }

  /** Walking over existing entries only moves on. */
  lemma {:induction false} WalkOn(fs: Fs, path: Path, i: nat, rest: Path, limit: nat)
    requires Proper(path) && i <= |path| && EntriesUpTo(fs, path, |path|)
    ensures Walk(fs, path[..i], path[i..] + rest, limit) == Walk(fs, path, rest, limit)
    decreases |path| - i
  {
    if i == |path| {
      assert path[i..] + rest == rest && path[..i] == path;
    } else {
      var ahead := path[i..] + rest;
      assert ahead[0] == path[i] && ahead[1..] == path[i + 1..] + rest;
      assert path[..i] + [path[i]] == path[..i + 1];
      assert path[i] in path;
      WalkOn(fs, path, i + 1, rest, limit);
    }
  }

  lemma CleanStep(base: Path, name: string, more: Path)
    ensures Skipped(name) ==> CleanOnto(base, [name] + more) == CleanOnto(base, more)
    ensures name == ".." ==> CleanOnto(base, [name] + more) == CleanOnto(Up(base), more)
    ensures Named(name) ==> CleanOnto(base, [name] + more) == CleanOnto(base + [name], more)
  {
    var all := [name] + more;
    assert all[0] == name && all[1..] == more;
  }

  lemma UpIsFine(fs: Fs, base: Path)
    requires Proper(base) && EntriesUpTo(fs, base, |base|)
    ensures Proper(Up(base)) && EntriesUpTo(fs, Up(base), |Up(base)|)
  {
    var up := Up(base);
    forall k | 0 < k <= |up| ensures up[..k] in fs && fs[up[..k]].Entry? { assert up[..k] == base[..k]; }
  }

  /** From a link-free directory a target walks where its cleaned path leads, as long as `..` drops only entries;
      once it drops a name that is not there, the walk fails. */
  lemma {:induction false} WalkTarget(fs: Fs, base: Path, kept: Path, more: Path, rest: Path, limit: nat)
    requires Proper(base) && EntriesUpTo(fs, base, |base|) && Proper(kept) && Proper(rest)
    ensures match Drops(fs, base, kept, more, limit)
            case Fine => Walk(fs, base, kept + (more + rest), limit) == Walk(fs, [], CleanOnto(base + kept, more) + rest, limit)
            case Missing => Walk(fs, base, kept + (more + rest), limit) == None
            case ThroughLink => true
    decreases |more|
  {
    hide *;
    DropsStep(fs, base, kept, more, limit);
    if more == [] {
      assert more + rest == rest && base + kept + rest == base[0..] + (kept + rest) && base[..0] == [];
      NothingToAdd(base + kept, more);
      WalkOn(fs, base, 0, kept + rest, limit);
    } else {
      var name, later := more[0], more[1..];
      assert more == [name] + later && more + rest == [name] + (later + rest);
      CleanStep(base + kept, name, later);
      NameKinds(name);
      if Skipped(name) {
        SkipGone(fs, base, kept, name, later + rest, limit);
        WalkTarget(fs, base, kept, later, rest, limit);
      } else if name != ".." {
        assert kept + (more + rest) == kept + [name] + (later + rest) && base + kept + [name] == base + (kept + [name]);
        ProperMore(kept, name);
        WalkTarget(fs, base, kept + [name], later, rest, limit);
      } else if kept == [] {
        assert kept + (more + rest) == [name] + (later + rest) && base + kept == base;
        WalkStep(fs, base, name, later + rest, limit);
        UpIsFine(fs, base);
        assert Up(base) + [] == Up(base) && [] + (later + rest) == later + rest;
        WalkTarget(fs, Up(base), [], later, rest, limit);
      } else {
        UpBelow(base, kept);
        assert kept + (more + rest) == Up(kept) + ([kept[|kept| - 1], name] + (later + rest));
        DropGone(fs, base, kept, name, later + rest, limit);
        WalkTarget(fs, base, Up(kept), later, rest, limit);
      }
    }
  }

  lemma DropsStep(fs: Fs, base: Path, kept: Path, more: Path, limit: nat)
    ensures Drops(fs, base, kept, more, limit) ==
      if more == [] then Fine
      else if Skipped(more[0]) then Drops(fs, base, kept, more[1..], limit)
      else if more[0] != ".." then Drops(fs, base, kept + [more[0]], more[1..], limit)
      else if kept == [] then Drops(fs, Up(base), [], more[1..], limit)
      else
        var d := LastDrop(fs, base, kept, limit);
        if d != Fine then d else Drops(fs, base, Up(kept), more[1..], limit)
  {
  }

  lemma ProperMore(kept: Path, name: string)
    requires Proper(kept) && Named(name)
    ensures Proper(kept + [name])
  {
  }

  lemma UpBelow(base: Path, kept: Path)
    requires kept != [] && Proper(kept)
    ensures Up(base + kept) == base + Up(kept) && kept == Up(kept) + [kept[|kept| - 1]] && Proper(Up(kept)) && Named(kept[|kept| - 1])
  {
    assert kept[|kept| - 1] in kept;
  }

  lemma SkipGone(fs: Fs, base: Path, kept: Path, name: string, rest: Path, limit: nat)
    requires Skipped(name)
    ensures Walk(fs, base, kept + ([name] + rest), limit) == Walk(fs, base, kept + rest, limit)
  {
    WalkJoin(fs, base, kept, [name] + rest, limit);
    WalkJoin(fs, base, kept, rest, limit);
    var at := Reach(fs, base, kept, limit);
    if at.Some? {
      WalkStep(fs, at.value.path, name, rest, at.value.left);
    }
  }

  /** A name and the `..` that drops it make no difference exactly when the name is an entry there. */
  lemma DropGone(fs: Fs, base: Path, kept: Path, up: string, rest: Path, limit: nat)
    requires kept != [] && Proper(kept) && up == ".."
    ensures var name := kept[|kept| - 1];
      match LastDrop(fs, base, kept, limit)
      case Fine => Walk(fs, base, Up(kept) + ([name, up] + rest), limit) == Walk(fs, base, Up(kept) + rest, limit)
      case Missing => Walk(fs, base, Up(kept) + ([name, up] + rest), limit) == None
      case ThroughLink => true
  {
    var name := kept[|kept| - 1];
    assert name in kept;
    WalkJoin(fs, base, Up(kept), [name, up] + rest, limit);
    WalkJoin(fs, base, Up(kept), rest, limit);
    var at := Reach(fs, base, Up(kept), limit);
    if at.Some? {
      var here := at.value.path;
      assert [name, up] + rest == [name] + ([up] + rest) && Up(here + [name]) == here;
      WalkStep(fs, here, name, [up] + rest, at.value.left);
      WalkStep(fs, here + [name], up, rest, at.value.left);
    }
  }

  /** One link: walking the path is walking the path the resolver goes on with, unless `..` dropped something else
      than an entry. */
  lemma WalkHop(fs: Fs, path: Path, i: nat, limit: nat)
    requires Proper(path) && i < |path| && EntriesUpTo(fs, path[..i], i)
    requires path[..i + 1] in fs && fs[path[..i + 1]].Link?
    ensures limit == 0 ==> Walk(fs, [], path, limit) == None
    ensures limit > 0 ==>
              var link := fs[path[..i + 1]];
              match Drops(fs, if link.absolute then [] else path[..i], [], link.target, limit - 1)
              case Fine => Walk(fs, [], path, limit) == Walk(fs, [], Followed(fs, path, i), limit - 1)
              case Missing => Walk(fs, [], path, limit) == None
              case ThroughLink => true
    ensures Proper(Followed(fs, path, i))
  {
    var front, rest := path[..i], path[i + 1..];
    var link := fs[path[..i + 1]];
    var ahead := path[i..];
    assert path == front[0..] + ahead && front[..0] == [];
    WalkOn(fs, front, 0, ahead, limit);
    assert ahead[0] == path[i] && ahead[1..] == rest && path[i] in path;
    assert front + [path[i]] == path[..i + 1];
    var base := if link.absolute then [] else front;
    CleanIsProper(base, link.target);
    CleanNamed(CleanOnto(base, link.target), rest);
    if limit > 0 {
      assert base + [] == base && [] + (link.target + rest) == link.target + rest;
      hide Drops, CleanOnto;
      WalkTarget(fs, base, [], link.target, rest, limit - 1);
    }
  }

  /**
   Over the links followed from this very path: when every component that a `..` drops is an entry where the walk
   stands, the resolver finds exactly the path that the system's own resolution reaches with the same number of
   links allowed. When the first other one is a name that is not there, the system finds nothing: the two then
   part exactly when the resolver does find something.
   */
  lemma {:induction false} AgreesWithSystem(fs: Fs, path: Path, limit: nat, followed: nat)
    requires Proper(path) && followed <= limit
    ensures var r, system := Resolve(fs, path, limit, followed), Walk(fs, [], path, limit - followed);
      match FirstDrop(fs, path, limit - followed)
      case Fine => system == if r.Resolved? then Some(r.path) else None
      case Missing => system == None
      case ThroughLink => true
    decreases limit - followed
  {
    var l := LookFrom(fs, path, 0);
    LookIs(fs, path, 0);
    match l {
      case Clear =>
        assert path[0..] + [] == path && path[..0] == [];
        WalkOn(fs, path, 0, [], limit - followed);
      case Absent => WalkAbsent(fs, path, 0, limit - followed);
        assert path[0..] == path && path[..0] == [];
      case LinkAt(i) =>
        forall k | 0 < k <= i ensures path[..i][..k] in fs && fs[path[..i][..k]].Entry? { assert path[..i][..k] == path[..k]; }
        WalkHop(fs, path, i, limit - followed);
        if followed < limit {
          AgreesWithSystem(fs, Followed(fs, path, i), limit, followed + 1);
        }
    }
  }

  /** A target whose `..` components all come first. */
  predicate UpFirst(target: Path) {
    forall i, j :: 0 <= i < j < |target| && Named(target[i]) ==> target[j] != ".."
  }

  predicate LinksUpFirst(fs: Fs) {
    forall p <- fs :: fs[p].Link? ==> UpFirst(fs[p].target)
  }

  lemma {:induction false} UpFirstDrops(fs: Fs, base: Path, kept: Path, more: Path, limit: nat)
    requires UpFirst(more) && (kept != [] ==> ".." !in more)
    ensures Drops(fs, base, kept, more, limit) == Fine
    decreases |more|
  {
    if more != [] {
      assert more[0] in more;
      if Skipped(more[0]) {
        UpFirstDrops(fs, base, kept, more[1..], limit);
      } else if more[0] == ".." {
        UpFirstDrops(fs, Up(base), [], more[1..], limit);
      } else {
        UpFirstDrops(fs, base, kept + [more[0]], more[1..], limit);
      }
    }
  }

  /** A tree in which every link's `..` components come first never has anything else dropped. */
  lemma {:induction false} UpFirstIsFine(fs: Fs, path: Path, limit: nat)
    requires LinksUpFirst(fs)
    ensures FirstDrop(fs, path, limit) == Fine
    decreases limit
  {
    hide Drops, CleanOnto, UpFirst;
    var l := LookFrom(fs, path, 0);
    if l.LinkAt? && limit > 0 {
      var link := fs[path[..l.index + 1]];
      UpFirstDrops(fs, if link.absolute then [] else path[..l.index], [], link.target, limit - 1);
      UpFirstIsFine(fs, Followed(fs, path, l.index), limit - 1);
    }
  }

  lemma {:induction false} WalkAbsent(fs: Fs, path: Path, i: nat, limit: nat)
    requires Proper(path) && i <= |path| && LookFrom(fs, path, i) == Absent
    ensures Walk(fs, path[..i], path[i..], limit) == None
    decreases |path| - i
  {
    assert path[i] in path && path[i..][0] == path[i] && path[i..][1..] == path[i + 1..];
    assert path[..i] + [path[i]] == path[..i + 1];
    if path[..i + 1] in fs {
      WalkAbsent(fs, path, i + 1, limit);
    }
  }

  /**
   With a `..` after a name the two can part: `/l -> d/../x` with `/d -> e/f` is cleaned
   to `/x`, while the system leaves the directory that `d` leads to, and finds `/e/x`.
   */
  lemma LexicalUpDiffers(fs: Fs, l: string, d: string, e: string, f: string, x: string)
    requires Proper([l, d, e, f, x]) && e != d
    requires [l] in fs && fs[[l]] == Link(false, [d, "..", x]) && [d] in fs && fs[[d]] == Link(false, [e, f])
    requires [e] in fs && fs[[e]] == Entry && [e, f] in fs && fs[[e, f]] == Entry
    requires [e, x] in fs && fs[[e, x]] == Entry && [x] in fs && fs[[x]] == Entry
    ensures Resolve(fs, [l], 2, 0) == Resolved([x]) && Walk(fs, [], [l], 2) == Some([e, x])
  {
    assert Named(l) && Named(d) && Named(e) && Named(f) && Named(x) by {
      assert l in [l, d, e, f, x] && d in [l, d, e, f, x] && e in [l, d, e, f, x] && f in [l, d, e, f, x] && x in [l, d, e, f, x];
    }
    LookOne(fs, l);
    LookOne(fs, x);
    assert [l][..0] == [] && [l][1..] == [];
    var t := [d, "..", x];
    assert t[1..] == ["..", x] && ["..", x][1..] == [x] && [x][1..] == [];
    assert [] + [d] == [d] && [d][..0] == [] && [] + [x] == [x] && [] + [l] == [l];
    assert CleanOnto([], [x]) == [x];
    assert CleanOnto([d], ["..", x]) == CleanOnto([], [x]);
    assert CleanOnto([], t) == [x];
    assert [l][..0 + 1] == [l] && CleanOnto([x], []) == [x];
    assert Followed(fs, [l], 0) == [x];
    assert Resolve(fs, [x], 2, 1) == Resolved([x]);
    assert Walk(fs, [e, x], [], 0) == Some([e, x]);
    assert [e] + [x] == [e, x] && [e] + [f] == [e, f] && [e, f][..1] == [e] && [] + [e] == [e];
    assert Walk(fs, [e], [x], 0) == Some([e, x]);
    assert Walk(fs, [e, f], ["..", x], 0) == Some([e, x]);
    var u := [e, f] + ["..", x];
    assert u[0] == e && u[1..] == [f, "..", x] && [f, "..", x][1..] == ["..", x];
    assert Walk(fs, [e], [f, "..", x], 0) == Some([e, x]);
    assert Walk(fs, [], u, 0) == Some([e, x]);
    assert Walk(fs, [], t, 1) == Some([e, x]);
    assert t + [] == t;
  }

  lemma LookOne(fs: Fs, n: string)
    requires [n] in fs
    ensures LookFrom(fs, [n], 0) == if fs[[n]].Link? then LinkAt(0) else Clear
  {
    assert [n][..1] == [n];
    assert LookFrom(fs, [n], 1) == Clear;
  }
}
