/** The byte order of names (Go's string order) and sorted listings. */
module Ordering {
  predicate Less(a: string, b: string) {
    if b == [] then false
    else if a == [] then true
    else a[0] < b[0] || (a[0] == b[0] && Less(a[1..], b[1..]))
  }

  lemma {:induction false} LessTotal(a: string, b: string)
    ensures a == b || Less(a, b) || Less(b, a)
    ensures !(Less(a, b) && Less(b, a)) && !Less(a, a)
  {
    if a != [] && b != [] {
      LessTotal(a[1..], b[1..]);
      assert a == [a[0]] + a[1..] && b == [b[0]] + b[1..];
    }
    if a != [] {
      LessTotal(a[1..], a[1..]);
    }
  }

  lemma {:induction false} LessTrans(a: string, b: string, c: string)
    requires Less(a, b) && Less(b, c)
    ensures Less(a, c)
  {
    if a != [] && a[0] == b[0] == c[0] {
      LessTrans(a[1..], b[1..], c[1..]);
    }
  }

  predicate First(s: set<string>, x: string) {
    x in s && forall y <- s :: y == x || Less(x, y)
  }

  lemma {:induction false} FirstExists(s: set<string>)
    requires s != {}
    ensures exists x :: First(s, x)
    ensures forall x, y :: First(s, x) && First(s, y) ==> x == y
    decreases |s|
  {
    forall x, y | First(s, x) && First(s, y)
      ensures x == y
    {
      LessTotal(x, y);
    }
    var y :| y in s;
    if s == {y} {
      assert First(s, y);
      return;
    }
    var rest := s - {y};
    assert s == {y} + rest;
    FirstExists(rest);
    var z :| First(rest, z);
    LessTotal(y, z);
    var x := if Less(y, z) then y else z;
    forall w | w in s
      ensures w == x || Less(x, w)
    {
      if w != y && w != z && Less(y, z) {
        LessTrans(y, z, w);
      }
    }
    assert First(s, x);
  }

  /** The names in order, each once. */
  function Listed(s: set<string>): (q: seq<string>)
    ensures |q| == |s| && (forall x :: x in q <==> x in s) && Ascending(q)
    decreases |s|
  {
    if s == {} then []
    else
      FirstExists(s);
      var x :| First(s, x);
      [x] + Listed(s - {x})
  }

  ghost predicate Ascending(q: seq<string>) {
    forall i, j :: 0 <= i < j < |q| ==> Less(q[i], q[j])
  }

  /** There is only one ascending list of a set. */
  lemma {:induction false} ListedUnique(q: seq<string>, p: seq<string>)
    requires Ascending(q) && Ascending(p) && forall x :: x in q <==> x in p
    ensures q == p
  {
    var x := if p != [] then p[0] else if q != [] then q[0] else "";
    assert x in p <==> x in q;
    if q != [] {
      assert q[0] in p && p != [];
      var i :| 0 <= i < |p| && p[i] == q[0];
      assert p[0] in q;
      var j :| 0 <= j < |q| && q[j] == p[0];
      LessTotal(p[0], q[0]);
      assert q[0] == p[0];
      forall x
        ensures x in q[1..] <==> x in p[1..]
      {
        if x in q[1..] {
          LessTotal(q[0], x);
          assert x in q && x in p && x != p[0];
        }
        if x in p[1..] {
          LessTotal(p[0], x);
          assert x in p && x in q && x != q[0];
        }
      }
      ListedUnique(q[1..], p[1..]);
      assert q == [q[0]] + q[1..] && p == [p[0]] + p[1..];
    }
  }
}
