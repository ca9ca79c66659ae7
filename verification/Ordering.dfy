/**
 The byte-wise lexicographic order of Go strings, and the sorting calls
 (`sort.Strings`, `slices.Sort`) the repository relies on.
 */
module Ordering {

  /** `a < b` in Go's string order. */
  predicate Less(a: string, b: string) {
    if |b| == 0 then false
    else if |a| == 0 then true
    else if a[0] != b[0] then a[0] < b[0]
    else Less(a[1..], b[1..])
  }

  lemma {:induction false} LessTrichotomy(a: string, b: string)
    ensures Less(a, b) || a == b || Less(b, a)
    ensures !(Less(a, b) && Less(b, a))
    ensures a == b ==> !Less(a, b)
  {
    if |a| != 0 && |b| != 0 && a[0] == b[0] {
      LessTrichotomy(a[1..], b[1..]);
      assert a == [a[0]] + a[1..] && b == [b[0]] + b[1..];
    }
  }

  lemma {:induction false} LessTransitive(a: string, b: string, c: string)
    requires Less(a, b) && Less(b, c)
    ensures Less(a, c)
  {
    if |a| != 0 && a[0] == b[0] && b[0] == c[0] {
      LessTransitive(a[1..], b[1..], c[1..]);
    }
  }

  /** Strictly increasing: sorted and free of duplicates. */
  ghost predicate Increasing(s: seq<string>) {
    forall i, j :: 0 <= i < j < |s| ==> Less(s[i], s[j])
  }

  ghost function Elements<T(!new)>(s: seq<T>): set<T> {
    set x | x in s
  }

  /** Inserts `x` at its place in a sorted list of other strings. */
  function Insert(x: string, s: seq<string>): (r: seq<string>)
    requires Increasing(s) && x !in s
    ensures Increasing(r)
    ensures Elements(r) == Elements(s) + {x}
    ensures |r| == |s| + 1
  {
    if s == [] then [x]
    else if Less(x, s[0]) then
      InsertFront(x, s);
      [x] + s
    else
      var rest := Insert(x, s[1..]);
      InsertBack(x, s, rest);
      [s[0]] + rest
  }

  lemma {:induction false} InsertFront(x: string, s: seq<string>)
    requires Increasing(s) && s != [] && Less(x, s[0])
    ensures Increasing([x] + s) && Elements([x] + s) == Elements(s) + {x}
  {
    forall k | 0 <= k < |s|
      ensures Less(x, s[k])
    {
      if k > 0 { LessTransitive(x, s[0], s[k]); }
    }
    ElementsConcat([x], s);
  }

  lemma {:induction false} InsertBack(x: string, s: seq<string>, rest: seq<string>)
    requires Increasing(s) && s != [] && x !in s && !Less(x, s[0])
    requires Increasing(rest) && Elements(rest) == Elements(s[1..]) + {x}
    ensures Increasing([s[0]] + rest) && Elements([s[0]] + rest) == Elements(s) + {x}
  {
    LessTrichotomy(x, s[0]);
    forall y | y in rest
      ensures Less(s[0], y)
    {
      assert y in Elements(rest);
      if y != x { assert y in s[1..]; }
    }
    ElementsConcat([s[0]], rest);
    ElementsConcat([s[0]], s[1..]);
    assert s == [s[0]] + s[1..];
  }

  /** Ranging over a Go map in arbitrary order, then sorting the keys. */
  method SortedSet(keys: set<string>) returns (r: seq<string>)
    ensures Increasing(r)
    ensures Elements(r) == keys
    ensures |r| == |keys|
    ensures r == SortedOf(keys)
  {
    r := [];
    var todo := keys;
    while todo != {}
      invariant todo <= keys
      invariant Increasing(r)
      invariant Elements(r) == keys - todo
      invariant |r| == |keys| - |todo|
      decreases |todo|
    {
      var x :| x in todo;
      assert x !in Elements(r);
      r := Insert(x, r);
      todo := todo - {x};
    }
    IncreasingUnique(r, SortedOf(keys));
  }

  lemma {:induction false} SortedExists(keys: set<string>) returns (r: seq<string>)
    ensures Increasing(r) && Elements(r) == keys && |r| == |keys|
  {
    if keys == {} {
      r := [];
    } else {
      var x :| x in keys;
      r := SortedExists(keys - {x});
      assert x !in Elements(r);
      r := Insert(x, r);
    }
  }

  /** The one increasing list of a finite set of strings. */
  ghost function SortedOf(keys: set<string>): (r: seq<string>)
    ensures Increasing(r) && Elements(r) == keys && |r| == |keys|
  {
    assert exists r :: Increasing(r) && Elements(r) == keys && |r| == |keys| by {
      var r := SortedExists(keys);
    }
    var r :| Increasing(r) && Elements(r) == keys && |r| == |keys|;
    r
  }

  lemma {:induction false} ElementsConcat<T(!new)>(a: seq<T>, b: seq<T>)
    ensures Elements(a + b) == Elements(a) + Elements(b)
  {
    assert forall x :: x in a + b <==> x in a || x in b;
  }

  ghost predicate Distinct<T>(s: seq<T>) {
    forall i, j :: 0 <= i < j < |s| ==> s[i] != s[j]
  }

  /** `sort.Strings` on a list without duplicates. */
  method Sort(s: seq<string>) returns (r: seq<string>)
    requires Distinct(s)
    ensures Increasing(r)
    ensures Elements(r) == Elements(s)
    ensures |r| == |s|
  {
    r := [];
    for i := 0 to |s|
      invariant Increasing(r)
      invariant Elements(r) == Elements(s[..i])
      invariant |r| == i
    {
      assert s[..i + 1] == s[..i] + [s[i]];
      assert s[i] !in Elements(r);
      r := Insert(s[i], r);
    }
    assert s[..|s|] == s;
  }

  lemma {:induction false} NoElements(a: seq<string>)
    ensures a == [] <==> Elements(a) == {}
  {
    if a != [] { assert a[0] in Elements(a); }
  }

  /** A strictly increasing list is determined by its elements. */
  lemma {:induction false} IncreasingUnique(a: seq<string>, b: seq<string>)
    requires Increasing(a) && Increasing(b)
    requires Elements(a) == Elements(b)
    ensures a == b
  {
    NoElements(a);
    NoElements(b);
    if b != [] {
      assert b[0] in Elements(a);
      assert a[0] in Elements(b);
      var i :| 0 <= i < |a| && a[i] == b[0];
      var j :| 0 <= j < |b| && b[j] == a[0];
      LessTrichotomy(a[0], b[0]);
      assert a[0] == b[0];
      TailElements(a);
      TailElements(b);
      IncreasingUnique(a[1..], b[1..]);
      assert a == [a[0]] + a[1..] && b == [b[0]] + b[1..];
    }
  }

  lemma {:induction false} TailElements(a: seq<string>)
    requires Increasing(a) && a != []
    ensures Increasing(a[1..])
    ensures Elements(a[1..]) == Elements(a) - {a[0]}
  {
    forall x
      ensures x in Elements(a[1..]) <==> x in Elements(a) - {a[0]}
    {
      if x in a[1..] {
        var k :| 0 <= k < |a[1..]| && a[1..][k] == x;
        assert a[k + 1] == x && Less(a[0], a[k + 1]);
        LessTrichotomy(a[0], x);
      }
      if x in a && x != a[0] {
        var k :| 0 <= k < |a| && a[k] == x;
        assert a[1..][k - 1] == x;
      }
    }
  }
}
