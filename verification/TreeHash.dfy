/**
 The Git tree hash of a skill directory, computed from a flat list of files (internal/agentskill/installed_hash.go:97-146
 and the same closure in internal/agentinterop/provider.go:167-219). Digests are injective: a hash is
 represented by what was hashed.
 */
module TreeHash {
  import opened Options
  import opened FileTree
  import opened Ordering

  datatype Object = BlobObject(data: Bytes) | TreeObject(members: seq<Member>)

  datatype Member = Member(mode: string, name: string, hash: Object)

  datatype Leaf = Leaf(mode: nat, data: Bytes)

  /** Files by slash-separated name. */
  type Flat = map<string, Leaf>

  predicate Executable(mode: nat) {
    mode % 2 == 1 || mode / 8 % 2 == 1 || mode / 64 % 2 == 1
  }

  function BlobMember(name: string, f: Leaf): Member {
    Member(if Executable(f.mode) then "100755" else "100644", name, BlobObject(f.data))
  }

  /** The part before the first slash, None if there is none. */
  function Cut(s: string): (head: Option<string>)
    ensures head.Some? ==> head.value + "/" <= s && '/' !in head.value
    ensures head == None ==> '/' !in s
  {
    if s == "" then None
    else if s[0] == '/' then Some("")
    else match Cut(s[1..])
         case Some(h) => Some([s[0]] + h)
         case None => None
  }

  /** The sort key of the member `rest` belongs to: a directory counts with its slash. */
  function KeyOf(rest: string): string {
    match Cut(rest)
    case Some(head) => head + "/"
    case None => rest
  }

  function KeysAt(m: Flat, prefix: string): set<string> {
    set k | k in m && prefix <= k :: KeyOf(k[|prefix|..])
  }

  predicate IsDirKey(key: string) {
    key != "" && key[|key| - 1] == '/'
  }

  ghost function Longest(s: set<string>): nat
  {
    if s == {} then 0
    else
      var x :| x in s;
      if |x| > Longest(s - {x}) then |x| else Longest(s - {x})
  }

  lemma {:induction false} LongestBounds(s: set<string>, x: string)
    requires x in s
    ensures |x| <= Longest(s)
  {
    var y :| y in s && Longest(s) == if |y| > Longest(s - {y}) then |y| else Longest(s - {y});
    if x != y {
      LongestBounds(s - {y}, x);
    }
  }

  /** A key names a file of its own or the start of a longer name. */
  lemma KeyFacts(m: Flat, prefix: string, key: string)
    requires key in KeysAt(m, prefix)
    ensures IsDirKey(key) ==> |prefix + key| <= Longest(m.Keys) && exists k :: k in m && prefix + key <= k
    ensures !IsDirKey(key) ==> prefix + key in m
  {
    var k :| k in m && prefix <= k && KeyOf(k[|prefix|..]) == key;
    var rest := k[|prefix|..];
    assert k == prefix + rest;
    LongestBounds(m.Keys, k);
    if Cut(rest).Some? {
      assert key <= rest;
      assert prefix + key <= k;
    }
  }

  /** The `tree` closure: it ends on every list, since each prefix it recurses on is a prefix of a file's name. */
  function TreeOf(m: Flat, prefix: string): Object
    decreases Longest(m.Keys) - |prefix|, 1, 0
  {
    TreeObject(MembersOf(m, prefix, Listed(KeysAt(m, prefix))))
  }

  function MembersOf(m: Flat, prefix: string, keys: seq<string>): seq<Member>
    requires forall key <- keys :: key in KeysAt(m, prefix)
    decreases Longest(m.Keys) - |prefix|, 0, |keys|
  {
    if keys == [] then []
    else
      KeyFacts(m, prefix, keys[0]);
      [MemberFor(m, prefix, keys[0])] + MembersOf(m, prefix, keys[1..])
  }

  function MemberFor(m: Flat, prefix: string, key: string): Member
    requires key in KeysAt(m, prefix)
    decreases Longest(m.Keys) - |prefix|, 0, 0
  {
    KeyFacts(m, prefix, key);
    if IsDirKey(key) then Member("40000", key[..|key| - 1], TreeOf(m, prefix + key)) else BlobMember(key, m[prefix + key])
  }

  /** Only names that start with the prefix matter. */
  lemma {:induction false} TreeDepends(m: Flat, n: Flat, prefix: string)
    requires forall k :: prefix <= k ==> (k in m <==> k in n) && (k in m ==> m[k] == n[k])
    ensures TreeOf(m, prefix) == TreeOf(n, prefix)
    decreases Longest(m.Keys) - |prefix|, 1, 0
  {
    assert KeysAt(m, prefix) == KeysAt(n, prefix);
    MembersDepend(m, n, prefix, Listed(KeysAt(m, prefix)));
  }

  lemma MembersDepend(m: Flat, n: Flat, prefix: string, keys: seq<string>)
    requires forall k :: prefix <= k ==> (k in m <==> k in n) && (k in m ==> m[k] == n[k])
    requires KeysAt(m, prefix) == KeysAt(n, prefix) && forall key <- keys :: key in KeysAt(m, prefix)
    ensures MembersOf(m, prefix, keys) == MembersOf(n, prefix, keys)
    decreases Longest(m.Keys) - |prefix|, 0, |keys|
  {
    if keys != [] {
      var key := keys[0];
      KeyFacts(m, prefix, key);
      if IsDirKey(key) {
        forall k | prefix + key <= k
          ensures (k in m <==> k in n) && (k in m ==> m[k] == n[k])
        {
          assert prefix <= k by { assert k[..|prefix|] == (prefix + key)[..|prefix|]; }
        }
        TreeDepends(m, n, prefix + key);
      }
      MembersDepend(m, n, prefix, keys[1..]);
    }
  }

  // The nested directory and its direct hash.

  datatype Node = FileNode(leaf: Leaf) | DirNode(children: seq<Child>)

  datatype Child = Child(name: string, node: Node)

  /** Names are distinct, not empty and hold no slash; no directory below the top is empty. */
  ghost predicate Proper(cs: seq<Child>) {
    && (forall i :: 0 <= i < |cs| ==> cs[i].name != "" && '/' !in cs[i].name)
    && (forall i, j :: 0 <= i < j < |cs| ==> cs[i].name != cs[j].name)
    && (forall i :: 0 <= i < |cs| && cs[i].node.DirNode? ==> cs[i].node.children != [] && Proper(cs[i].node.children))
  }

  function ChildKey(c: Child): string {
    if c.node.DirNode? then c.name + "/" else c.name
  }

  function ChildKeys(cs: seq<Child>): set<string> {
    set i | 0 <= i < |cs| :: ChildKey(cs[i])
  }

  function Find(cs: seq<Child>, key: string): (i: nat)
    requires key in ChildKeys(cs)
    ensures i < |cs| && ChildKey(cs[i]) == key
  {
    if ChildKey(cs[0]) == key then 0
    else
      assert cs == [cs[0]] + cs[1..];
      1 + Find(cs[1..], key)
  }

  /** The hash of a directory from the hashes of its children, in key order. */
  function Direct(cs: seq<Child>): Object
    decreases cs, 1, 0
  {
    TreeObject(DirectMembers(cs, Listed(ChildKeys(cs))))
  }

  function DirectMembers(cs: seq<Child>, keys: seq<string>): seq<Member>
    requires forall key <- keys :: key in ChildKeys(cs)
    decreases cs, 0, |keys|
  {
    if keys == [] then [] else [DirectMember(cs[Find(cs, keys[0])])] + DirectMembers(cs, keys[1..])
  }

  function DirectMember(c: Child): Member
    decreases c, 2, 0
  {
    match c.node
    case FileNode(leaf) => BlobMember(c.name, leaf)
    case DirNode(sub) => Member("40000", c.name, Direct(sub))
  }

  /** The files of a directory by their full names below `prefix`. */
  function Flatten(cs: seq<Child>, prefix: string): Flat
    decreases cs
  {
    if cs == [] then map[]
    else
      (match cs[0].node
       case FileNode(leaf) => map[prefix + cs[0].name := leaf]
       case DirNode(sub) => Flatten(sub, prefix + cs[0].name + "/"))
      + Flatten(cs[1..], prefix)
  }

  lemma {:induction false} CutAt(head: string, rest: string)
    requires '/' !in head
    ensures Cut(head + "/" + rest) == Some(head) && (Cut(head) == None)
  {
    if head != "" {
      var s := head + "/" + rest;
      assert s[1..] == head[1..] + "/" + rest;
      CutAt(head[1..], rest);
      assert [head[0]] + head[1..] == head;
    } else {
      assert (head + "/" + rest)[0] == '/';
    }
  }

  lemma KeyOfChild(c: Child, rest: string)
    requires '/' !in c.name
    ensures KeyOf(c.name) == c.name && KeyOf(c.name + "/" + rest) == c.name + "/"
  {
    CutAt(c.name, rest);
  }

  function Under(prefix: string, c: Child): Flat {
    match c.node
    case FileNode(leaf) => map[prefix + c.name := leaf]
    case DirNode(sub) => Flatten(sub, prefix + c.name + "/")
  }

  lemma ProperTail(cs: seq<Child>)
    requires Proper(cs) && cs != []
    ensures Proper(cs[1..])
  {
  }

  /** A flattened name starts with the prefix and goes on with the key of the child it came from. */
  lemma {:induction false} FlatFrom(cs: seq<Child>, prefix: string, k: string) returns (i: nat)
    requires Proper(cs) && k in Flatten(cs, prefix)
    ensures i < |cs| && k in Under(prefix, cs[i]) && Flatten(cs, prefix)[k] == Under(prefix, cs[i])[k]
    ensures prefix <= k && KeyOf(k[|prefix|..]) == ChildKey(cs[i])
    decreases cs
  {
    ProperTail(cs);
    if k in Flatten(cs[1..], prefix) {
      var j := FlatFrom(cs[1..], prefix, k);
      i := j + 1;
    } else {
      i := 0;
      UnderKey(cs[0], prefix, k);
    }
  }

  lemma UnderKey(c: Child, prefix: string, k: string)
    requires '/' !in c.name && (c.node.DirNode? ==> Proper(c.node.children)) && k in Under(prefix, c)
    ensures prefix <= k && KeyOf(k[|prefix|..]) == ChildKey(c)
    decreases c
  {
    match c.node
    case FileNode(leaf) =>
      KeyOfChild(c, "");
      assert k[|prefix|..] == c.name;
    case DirNode(sub) =>
      var deeper := prefix + c.name + "/";
      var i := FlatFrom(sub, deeper, k);
      var rest := k[|deeper|..];
      assert k == deeper + rest;
      assert k[|prefix|..] == c.name + "/" + rest;
      KeyOfChild(c, rest);
  }

  /** Two children of a proper directory have different keys. */
  lemma KeysApart(cs: seq<Child>, i: nat, j: nat)
    requires Proper(cs) && i < |cs| && j < |cs| && ChildKey(cs[i]) == ChildKey(cs[j])
    ensures i == j
  {
    KeyOfChild(cs[i], "");
    KeyOfChild(cs[j], "");
    assert cs[i].name + "/" + "" == cs[i].name + "/" && cs[j].name + "/" + "" == cs[j].name + "/";
    assert ChildKey(cs[i])[..|cs[i].name|] == cs[i].name && ChildKey(cs[j])[..|cs[j].name|] == cs[j].name;
    assert cs[i].node.DirNode? <==> '/' in ChildKey(cs[i]) by { SlashKey(cs[i]); }
    assert cs[j].node.DirNode? <==> '/' in ChildKey(cs[j]) by { SlashKey(cs[j]); }
  }

  lemma SlashKey(c: Child)
    requires '/' !in c.name
    ensures c.node.DirNode? <==> '/' in ChildKey(c)
    ensures c.name != "" ==> (c.node.DirNode? <==> IsDirKey(ChildKey(c)))
  {
    if c.node.DirNode? {
      assert ChildKey(c)[|c.name|] == '/';
    }
  }

  /** Each child's files are all there. */
  lemma {:induction false} FlatHas(cs: seq<Child>, prefix: string, i: nat, k: string)
    requires Proper(cs) && i < |cs| && k in Under(prefix, cs[i])
    ensures k in Flatten(cs, prefix) && Flatten(cs, prefix)[k] == Under(prefix, cs[i])[k]
    decreases |cs|
  {
    ProperTail(cs);
    UnderKey(cs[i], prefix, k);
    if i > 0 {
      FlatHas(cs[1..], prefix, i - 1, k);
    } else if k in Flatten(cs[1..], prefix) {
      var j := FlatFrom(cs[1..], prefix, k);
      KeysApart(cs, 0, j + 1);
    }
  }

  lemma {:induction false} FlatNotEmpty(cs: seq<Child>, prefix: string) returns (k: string)
    requires Proper(cs) && cs != []
    ensures k in Flatten(cs, prefix)
    decreases cs
  {
    match cs[0].node
    case FileNode(leaf) =>
      k := prefix + cs[0].name;
      FlatHas(cs, prefix, 0, k);
    case DirNode(sub) =>
      k := FlatNotEmpty(sub, prefix + cs[0].name + "/");
      FlatHas(cs, prefix, 0, k);
  }

  lemma FlatKeys(cs: seq<Child>, prefix: string)
    requires Proper(cs)
    ensures KeysAt(Flatten(cs, prefix), prefix) == ChildKeys(cs)
  {
    var m := Flatten(cs, prefix);
    forall key | key in KeysAt(m, prefix)
      ensures key in ChildKeys(cs)
    {
      var k :| k in m && prefix <= k && KeyOf(k[|prefix|..]) == key;
      var i := FlatFrom(cs, prefix, k);
    }
    forall key | key in ChildKeys(cs)
      ensures key in KeysAt(m, prefix)
    {
      var i :| 0 <= i < |cs| && ChildKey(cs[i]) == key;
      var k: string;
      match cs[i].node {
        case FileNode(leaf) => k := prefix + cs[i].name;
        case DirNode(sub) => k := FlatNotEmpty(sub, prefix + cs[i].name + "/");
      }
      FlatHas(cs, prefix, i, k);
      UnderKey(cs[i], prefix, k);
    }
  }

  /** The files below one child, found by their prefix in the whole list. */
  lemma FlatBelow(cs: seq<Child>, prefix: string, i: nat, k: string)
    requires Proper(cs) && i < |cs| && cs[i].node.DirNode? && prefix + cs[i].name + "/" <= k
    ensures k in Flatten(cs, prefix) <==> k in Under(prefix, cs[i])
    ensures k in Under(prefix, cs[i]) ==> Flatten(cs, prefix)[k] == Under(prefix, cs[i])[k]
  {
    if k in Flatten(cs, prefix) {
      var j := FlatFrom(cs, prefix, k);
      var rest := k[|prefix + cs[i].name + "/"|..];
      assert k == prefix + cs[i].name + "/" + rest;
      assert k[|prefix|..] == cs[i].name + "/" + rest;
      KeyOfChild(cs[i], rest);
      KeysApart(cs, i, j);
    }
    if k in Under(prefix, cs[i]) {
      FlatHas(cs, prefix, i, k);
    }
  }

  /** The hash of the flat list is the direct hash of the nested directory. */
  lemma {:induction false} FlatIsDirect(cs: seq<Child>, prefix: string)
    requires Proper(cs)
    ensures TreeOf(Flatten(cs, prefix), prefix) == Direct(cs)
    decreases cs, 1, 0
  {
    FlatKeys(cs, prefix);
    FlatMembers(cs, prefix, Listed(ChildKeys(cs)));
  }

  lemma FlatMembers(cs: seq<Child>, prefix: string, keys: seq<string>)
    requires Proper(cs) && (forall key <- keys :: key in ChildKeys(cs)) && KeysAt(Flatten(cs, prefix), prefix) == ChildKeys(cs)
    ensures MembersOf(Flatten(cs, prefix), prefix, keys) == DirectMembers(cs, keys)
    decreases cs, 0, |keys|
  {
    if keys != [] {
      FlatMember(cs, prefix, Find(cs, keys[0]));
      FlatMembers(cs, prefix, keys[1..]);
    }
  }

  lemma FlatMember(cs: seq<Child>, prefix: string, i: nat)
    requires Proper(cs) && i < |cs| && KeysAt(Flatten(cs, prefix), prefix) == ChildKeys(cs)
    ensures ChildKey(cs[i]) in ChildKeys(cs) && MemberFor(Flatten(cs, prefix), prefix, ChildKey(cs[i])) == DirectMember(cs[i])
    decreases cs, 0, 0
  {
    var m, c := Flatten(cs, prefix), cs[i];
    assert ChildKey(c) in ChildKeys(cs);
    SlashKey(c);
    match c.node
    case FileNode(leaf) =>
      FlatHas(cs, prefix, i, prefix + c.name);
    case DirNode(sub) =>
      var deeper := prefix + c.name + "/";
      assert prefix + ChildKey(c) == deeper && ChildKey(c)[..|ChildKey(c)| - 1] == c.name;
      forall k | deeper <= k
        ensures (k in m <==> k in Flatten(sub, deeper)) && (k in m ==> m[k] == Flatten(sub, deeper)[k])
      {
        FlatBelow(cs, prefix, i, k);
      }
      TreeDepends(m, Flatten(sub, deeper), deeper);
      FlatIsDirect(sub, deeper);
  }

  // What the hash tells.

  lemma {:induction false} MembersAt(m: Flat, prefix: string, keys: seq<string>, i: nat)
    requires (forall key <- keys :: key in KeysAt(m, prefix)) && i < |keys|
    ensures |MembersOf(m, prefix, keys)| == |keys| && MembersOf(m, prefix, keys)[i] == MemberFor(m, prefix, keys[i])
    decreases |keys|
  {
    if |keys| > 1 {
      MembersAt(m, prefix, keys[1..], if i > 0 then i - 1 else 0);
    } else {
      assert MembersOf(m, prefix, keys[1..]) == [];
    }
  }

  function KeyOfMember(x: Member): string {
    if x.mode == "40000" then x.name + "/" else x.name
  }

  lemma MemberTellsKey(m: Flat, prefix: string, key: string)
    requires key in KeysAt(m, prefix)
    ensures KeyOfMember(MemberFor(m, prefix, key)) == key
  {
    KeyFacts(m, prefix, key);
    if IsDirKey(key) {
      assert key[..|key| - 1] + "/" == key;
    }
  }

  lemma SameKeys(m: Flat, n: Flat, prefix: string)
    requires TreeOf(m, prefix) == TreeOf(n, prefix)
    ensures KeysAt(m, prefix) == KeysAt(n, prefix)
  {
    hide *;
    var ms, ns := Listed(KeysAt(m, prefix)), Listed(KeysAt(n, prefix));
    TreeIs(m, prefix);
    TreeIs(n, prefix);
    MembersSize(m, prefix, ms);
    MembersSize(n, prefix, ns);
    forall i | 0 <= i < |ms|
      ensures ms[i] == ns[i]
    {
      MembersAt(m, prefix, ms, i);
      MembersAt(n, prefix, ns, i);
      MemberTellsKey(m, prefix, ms[i]);
      MemberTellsKey(n, prefix, ns[i]);
    }
    assert ms == ns;
  }

  lemma {:induction false} MembersSize(m: Flat, prefix: string, keys: seq<string>)
    requires forall key <- keys :: key in KeysAt(m, prefix)
    ensures |MembersOf(m, prefix, keys)| == |keys|
    decreases |keys|
  {
    if keys != [] {
      MembersSize(m, prefix, keys[1..]);
    }
  }

  lemma TreeIs(m: Flat, prefix: string)
    ensures TreeOf(m, prefix) == TreeObject(MembersOf(m, prefix, Listed(KeysAt(m, prefix))))
  {
  }

  lemma SameMember(m: Flat, n: Flat, prefix: string, key: string)
    requires TreeOf(m, prefix) == TreeOf(n, prefix) && key in KeysAt(m, prefix) && KeysAt(m, prefix) == KeysAt(n, prefix)
    ensures MemberFor(m, prefix, key) == MemberFor(n, prefix, key)
  {
    hide *;
    var keys := Listed(KeysAt(m, prefix));
    TreeIs(m, prefix);
    TreeIs(n, prefix);
    assert key in keys;
    var i :| 0 <= i < |keys| && keys[i] == key;
    MembersAt(m, prefix, keys, i);
    MembersAt(n, prefix, keys, i);
  }

  /** Equal hashes mean equal files: the same names, bytes and execute bits. */
  lemma {:induction false} HashTells(m: Flat, n: Flat, prefix: string, k: string)
    requires TreeOf(m, prefix) == TreeOf(n, prefix) && k in m && prefix <= k
    ensures k in n && n[k].data == m[k].data && (Executable(n[k].mode) <==> Executable(m[k].mode))
    decreases |k| - |prefix|
  {
    hide *;
    var rest := k[|prefix|..];
    assert k == prefix + rest;
    NameKey(m, prefix, rest);
    SameKeys(m, n, prefix);
    SameMember(m, n, prefix, KeyOf(rest));
    if Cut(rest) == None {
      FileMember(m, prefix, rest);
      FileMember(n, prefix, rest);
      BlobTells(rest, m[k], n[k]);
    } else {
      DirMember(m, prefix, rest, Cut(rest).value);
      DirMember(n, prefix, rest, Cut(rest).value);
      HashTells(m, n, prefix + (Cut(rest).value + "/"), k);
    }
  }

  lemma NameKey(m: Flat, prefix: string, rest: string)
    requires prefix + rest in m
    ensures KeyOf(rest) in KeysAt(m, prefix)
    ensures Cut(rest) == None ==> KeyOf(rest) == rest
    ensures Cut(rest).Some? ==> KeyOf(rest) == Cut(rest).value + "/" <= rest
  {
    assert (prefix + rest)[|prefix|..] == rest;
  }

  lemma FileMember(m: Flat, prefix: string, rest: string)
    requires rest in KeysAt(m, prefix) && Cut(rest) == None
    ensures prefix + rest in m && MemberFor(m, prefix, rest) == BlobMember(rest, m[prefix + rest])
  {
    hide KeysAt;
    KeyFacts(m, prefix, rest);
  }

  lemma DirMember(m: Flat, prefix: string, rest: string, head: string)
    requires head + "/" in KeysAt(m, prefix)
    ensures MemberFor(m, prefix, head + "/") == Member("40000", head, TreeOf(m, prefix + (head + "/")))
    ensures head + "/" <= rest ==> prefix + (head + "/") <= prefix + rest
  {
    KeyFacts(m, prefix, head + "/");
    assert (head + "/")[..|head + "/"| - 1] == head;
  }

  lemma BlobTells(name: string, f: Leaf, g: Leaf)
    requires BlobMember(name, f) == BlobMember(name, g)
    ensures f.data == g.data && (Executable(f.mode) <==> Executable(g.mode))
  {
  }

  // The closure as it runs over the list.

  datatype File = File(name: string, mode: nat, data: Bytes)

  predicate DistinctNames(files: seq<File>) {
    forall i, j :: 0 <= i < j < |files| ==> files[i].name != files[j].name
  }

  function FlatOf(files: seq<File>): Flat {
    if files == [] then map[]
        else FlatOf(files[..|files| - 1])[files[|files| - 1].name := Leaf(files[|files| - 1].mode, files[|files| - 1].data)]
  }

  lemma {:induction false} FlatOfAt(files: seq<File>, i: nat)
    requires DistinctNames(files) && i < |files|
    ensures files[i].name in FlatOf(files) && FlatOf(files)[files[i].name] == Leaf(files[i].mode, files[i].data)
    decreases |files|
  {
    var n := |files| - 1;
    if i < n {
      assert files[..n][i] == files[i];
      FlatOfAt(files[..n], i);
    }
  }

  lemma {:induction false} FlatOfOnly(files: seq<File>, k: string) returns (i: nat)
    requires k in FlatOf(files)
    ensures i < |files| && files[i].name == k
    decreases |files|
  {
    var n := |files| - 1;
    if files[n].name == k {
      i := n;
    } else {
      i := FlatOfOnly(files[..n], k);
    }
  }

  /** The order of the list does not matter. */
  lemma OrderFree(files: seq<File>, others: seq<File>, prefix: string)
    requires DistinctNames(files) && DistinctNames(others) && forall f :: f in files <==> f in others
    ensures TreeOf(FlatOf(files), prefix) == TreeOf(FlatOf(others), prefix)
  {
    SameFiles(files, others);
    SameFiles(others, files);
    assert FlatOf(files) == FlatOf(others);
  }

  lemma SameFiles(files: seq<File>, others: seq<File>)
    requires DistinctNames(files) && DistinctNames(others) && forall f <- files :: f in others
    ensures forall k <- FlatOf(files) :: k in FlatOf(others) && FlatOf(files)[k] == FlatOf(others)[k]
  {
    forall k | k in FlatOf(files)
      ensures k in FlatOf(others) && FlatOf(files)[k] == FlatOf(others)[k]
    {
      var i := FlatOfOnly(files, k);
      FlatOfAt(files, i);
      assert files[i] in others;
      var j :| 0 <= j < |others| && others[j] == files[i];
      FlatOfAt(others, j);
    }
  }

  datatype Keyed = Keyed(key: string, member: Member)

  /** The members gathered so far, each as the specification has it and each once. */
  ghost predicate Gathered(m: Flat, prefix: string, ks: seq<Keyed>, keys: set<string>) {
    && (forall i :: 0 <= i < |ks| ==>
          ks[i].key in keys && ks[i].key in KeysAt(m, prefix) && ks[i].member == MemberFor(m, prefix, ks[i].key))
    && (forall key <- keys :: exists i :: 0 <= i < |ks| && ks[i].key == key)
    && (forall i, j :: 0 <= i < j < |ks| ==> ks[i].key != ks[j].key)
  }

  lemma GatheredMore(m: Flat, prefix: string, ks: seq<Keyed>, keys: set<string>, key: string, x: Member)
    requires Gathered(m, prefix, ks, keys) && key !in keys && key in KeysAt(m, prefix) && x == MemberFor(m, prefix, key)
    ensures Gathered(m, prefix, ks + [Keyed(key, x)], keys + {key})
  {
    hide KeysAt, MemberFor;
    var all := ks + [Keyed(key, x)];
    forall k | k in keys + {key}
      ensures exists i :: 0 <= i < |all| && all[i].key == k
    {
      if k == key {
        assert all[|ks|].key == k;
      } else {
        var i :| 0 <= i < |ks| && ks[i].key == k;
        assert all[i].key == k;
      }
    }
  }

  /** The members in key order. */
  method SortMembers(ghost m: Flat, ghost prefix: string, ks: seq<Keyed>, keys: set<string>) returns (out: seq<Member>)
    requires Gathered(m, prefix, ks, keys) && keys == KeysAt(m, prefix)
    ensures out == MembersOf(m, prefix, Listed(keys))
  {
    var order := Listed(keys);
    out := [];
    hide *;
    MembersSplit(m, prefix, order, 0);
    for n := 0 to |order|
      invariant out == MembersOf(m, prefix, order[..n])
    {
      MembersSplit(m, prefix, order, n);
      var x := MemberOf(m, prefix, ks, keys, order[n]);
      out := out + [x];
    }
    assert order[..|order|] == order;
  }

  method MemberOf(ghost m: Flat, ghost prefix: string, ks: seq<Keyed>, keys: set<string>, key: string)
    returns (x: Member)
    requires Gathered(m, prefix, ks, keys) && key in keys && key in KeysAt(m, prefix)
    ensures x == MemberFor(m, prefix, key)
  {
    hide KeysAt, MemberFor;
    var i :| 0 <= i < |ks| && ks[i].key == key;
    x := ks[i].member;
  }

  lemma {:induction false} MembersSplit(m: Flat, prefix: string, keys: seq<string>, n: nat)
    requires (forall key <- keys :: key in KeysAt(m, prefix)) && n <= |keys|
    ensures MembersOf(m, prefix, []) == [] && keys[..0] == []
    ensures n < |keys| ==>
              MembersOf(m, prefix, keys[..n + 1]) == MembersOf(m, prefix, keys[..n]) + [MemberFor(m, prefix, keys[n])]
    decreases |keys|
  {
    hide KeysAt, MemberFor;
    if n < |keys| {
      if n == 0 {
        assert keys[..1] == [keys[0]] && [keys[0]][1..] == [];
      } else {
        MembersSplit(m, prefix, keys[1..], n - 1);
        assert keys[..n + 1][1..] == keys[1..][..n] && keys[..n][1..] == keys[1..][..n - 1];
      }
    }
  }

  /** Where a name below the prefix goes: its head to the directories, or itself to the members. */
  predicate Sorted(name: string, prefix: string, keys: set<string>, dirs: set<string>) {
    prefix <= name ==>
      var rest := name[|prefix|..];
      if Cut(rest).Some? then Cut(rest).value in dirs else rest in keys
  }

  /** The first `i` names are sorted, and nothing else is. */
  ghost predicate Scanned(m: Flat, files: seq<File>, prefix: string, i: nat, keys: set<string>, dirs: set<string>)
    requires i <= |files|
  {
    && (forall key <- keys :: Cut(key) == None)
    && (forall d <- dirs :: '/' !in d && d + "/" in KeysAt(m, prefix))
    && (forall j :: 0 <= j < i ==> Sorted(files[j].name, prefix, keys, dirs))
    && (forall key <- keys :: exists j :: 0 <= j < i && files[j].name == prefix + key)
  }

  lemma ScanSkips(m: Flat, files: seq<File>, prefix: string, i: nat, keys: set<string>, dirs: set<string>)
    requires i < |files| && Scanned(m, files, prefix, i, keys, dirs) && !(prefix <= files[i].name)
    ensures Scanned(m, files, prefix, i + 1, keys, dirs)
  {
    hide KeysAt;
  }

  lemma ScanDir(m: Flat, files: seq<File>, prefix: string, i: nat, keys: set<string>, dirs: set<string>, head: string)
    requires i < |files| && Scanned(m, files, prefix, i, keys, dirs)
    requires prefix <= files[i].name && Cut(files[i].name[|prefix|..]) == Some(head) && head + "/" in KeysAt(m, prefix)
    ensures Scanned(m, files, prefix, i + 1, keys, dirs + {head})
  {
    hide KeysAt;
  }

  lemma ScanFile(m: Flat, files: seq<File>, prefix: string, i: nat, keys: set<string>, dirs: set<string>, rest: string)
    requires i < |files| && Scanned(m, files, prefix, i, keys, dirs)
    requires files[i].name == prefix + rest && Cut(rest) == None
    ensures Scanned(m, files, prefix, i + 1, keys + {rest}, dirs)
  {
    hide KeysAt;
    assert (prefix + rest)[|prefix|..] == rest;
    forall key | key in keys + {rest}
      ensures exists j :: 0 <= j < i + 1 && files[j].name == prefix + key
    {
      if key in keys {
        var j :| 0 <= j < i && files[j].name == prefix + key;
      }
    }
    forall j | 0 <= j < i + 1
      ensures Sorted(files[j].name, prefix, keys + {rest}, dirs)
    {
      assert j < i ==> Sorted(files[j].name, prefix, keys, dirs);
    }
  }

  /** What one name below the prefix is for the specification. */
  lemma NameFacts(files: seq<File>, prefix: string, i: nat)
    requires DistinctNames(files) && i < |files| && prefix <= files[i].name
    ensures var f, m := files[i], FlatOf(files);
            var rest := f.name[|prefix|..];
            && f.name == prefix + rest && f.name in m && m[f.name] == Leaf(f.mode, f.data) && KeyOf(rest) in KeysAt(m, prefix)
            && (Cut(rest) == None ==> MemberFor(m, prefix, rest) == BlobMember(rest, Leaf(f.mode, f.data)))
  {
    FlatOfAt(files, i);
    var f, m := files[i], FlatOf(files);
    var rest := f.name[|prefix|..];
    assert f.name == prefix + rest && f.name in m;
    hide FlatOf;
    assert KeyOf(rest) in KeysAt(m, prefix);
    if Cut(rest) == None {
      FileMember(m, prefix, rest);
    }
  }

  lemma NewName(files: seq<File>, prefix: string, i: nat, keys: set<string>, dirs: set<string>, rest: string)
    requires DistinctNames(files) && i < |files| && Scanned(FlatOf(files), files, prefix, i, keys, dirs) && files[i].name == prefix + rest
    ensures rest !in keys
  {
    hide KeysAt, FlatOf, Sorted;
    forall key | key in keys
      ensures key != rest
    {
      var j :| 0 <= j < i && files[j].name == prefix + key;
      assert files[j].name != files[i].name;
    }
  }

  /** After the scan the keys are the file members and the directory heads. */
  lemma ScanDone(files: seq<File>, prefix: string, keys: set<string>, dirs: set<string>)
    requires DistinctNames(files) && Scanned(FlatOf(files), files, prefix, |files|, keys, dirs)
    ensures keys <= KeysAt(FlatOf(files), prefix)
    ensures KeysAt(FlatOf(files), prefix) == keys + set d | d in dirs :: d + "/"
    ensures forall d <- dirs :: d + "/" !in keys
  {
    var m := FlatOf(files);
    forall key | key in keys
      ensures key in KeysAt(m, prefix)
    {
      var j :| 0 <= j < |files| && files[j].name == prefix + key;
      NameFacts(files, prefix, j);
      assert (prefix + key)[|prefix|..] == key;
    }
    hide FlatOf;
    forall key | key in KeysAt(m, prefix)
      ensures key in keys + set d | d in dirs :: d + "/"
    {
      var k :| k in m && prefix <= k && KeyOf(k[|prefix|..]) == key;
      var j := FlatOfOnly(files, k);
      assert Sorted(files[j].name, prefix, keys, dirs);
    }
    HeadsApart(keys, dirs);
  }

  lemma HeadsApart(keys: set<string>, dirs: set<string>)
    requires (forall key <- keys :: Cut(key) == None) && forall d <- dirs :: '/' !in d
    ensures forall d <- dirs :: d + "/" !in keys
  {
    forall d | d in dirs
      ensures d + "/" !in keys
    {
      CutAt(d, "");
      assert d + "/" + "" == d + "/";
    }
  }

  /** The closure on a list: members in list order, directories by recursion, then sorted. */
  method HashTree(files: seq<File>, prefix: string) returns (hash: Object)
    requires DistinctNames(files)
    ensures hash == TreeOf(FlatOf(files), prefix)
    decreases Longest(FlatOf(files).Keys) - |prefix|
  {
    hide *;
    var members: seq<Keyed> := [];
    var keys: set<string>, dirs: set<string> := {}, {};
    ghost var m := FlatOf(files);
    NothingScanned(m, files, prefix);
    for i := 0 to |files|
      invariant Gathered(m, prefix, members, keys) && Scanned(m, files, prefix, i, keys, dirs)
    {
      if prefix <= files[i].name {
        NameFacts(files, prefix, i);
        var rest := files[i].name[|prefix|..];
        KeyIs(rest);
        match Cut(rest) {
          case Some(head) =>
            ScanDir(m, files, prefix, i, keys, dirs, head);
            dirs := dirs + {head};
          case None =>
            NewName(files, prefix, i, keys, dirs, rest);
            ScanFile(m, files, prefix, i, keys, dirs, rest);
            GatheredMore(m, prefix, members, keys, rest, BlobMember(rest, Leaf(files[i].mode, files[i].data)));
            members := members + [Keyed(rest, BlobMember(rest, Leaf(files[i].mode, files[i].data)))];
            keys := keys + {rest};
        }
      } else {
        ScanSkips(m, files, prefix, i, keys, dirs);
      }
    }
    ScanDone(files, prefix, keys, dirs);
    ghost var fileKeys := keys;
    var left := dirs;
    assert keys == fileKeys + set d | d in dirs && d !in left :: d + "/";
    while left != {}
      invariant left <= dirs && Gathered(m, prefix, members, keys)
      invariant keys == fileKeys + set d | d in dirs && d !in left :: d + "/"
      decreases |left|
    {
      var name :| name in left;
      var key := name + "/";
      assert key in KeysAt(m, prefix);
      DirKeyFacts(m, prefix, name);
      var sub := HashTree(files, prefix + key);
      DirNew(fileKeys, dirs, left, keys, name);
      GatheredMore(m, prefix, members, keys, key, Member("40000", name, sub));
      members := members + [Keyed(key, Member("40000", name, sub))];
      keys := keys + {key};
      left := left - {name};
    }
    assert keys == fileKeys + set d | d in dirs :: d + "/";
    var sorted := SortMembers(m, prefix, members, keys);
    TreeIs(m, prefix);
    hash := TreeObject(sorted);
  }

  lemma NothingScanned(m: Flat, files: seq<File>, prefix: string)
    ensures Gathered(m, prefix, [], {}) && Scanned(m, files, prefix, 0, {}, {})
  {
  }

  lemma KeyIs(rest: string)
    ensures KeyOf(rest) == match Cut(rest) case Some(head) => head + "/" case None => rest
  {
  }

  lemma DirKeyFacts(m: Flat, prefix: string, name: string)
    requires name + "/" in KeysAt(m, prefix)
    ensures |prefix + (name + "/")| <= Longest(m.Keys)
    ensures MemberFor(m, prefix, name + "/") == Member("40000", name, TreeOf(m, prefix + (name + "/")))
  {
    KeyFacts(m, prefix, name + "/");
    DirMember(m, prefix, name + "/", name);
  }

  lemma DirNew(fileKeys: set<string>, dirs: set<string>, left: set<string>, keys: set<string>, name: string)
    requires keys == fileKeys + (set d | d in dirs && d !in left :: d + "/") && name in left && left <= dirs
    requires forall d <- dirs :: d + "/" !in fileKeys
    ensures name + "/" !in keys
    ensures keys + {name + "/"} == fileKeys + set d | d in dirs && d !in left - {name} :: d + "/"
  {
    forall d | d in dirs && d + "/" == name + "/"
      ensures d == name
    {
      assert (d + "/")[..|d + "/"| - 1] == d && (name + "/")[..|name + "/"| - 1] == name;
    }
  }
}
