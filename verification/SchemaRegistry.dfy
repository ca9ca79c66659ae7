/** The index over every CSP tree, schema/csp/registry.go. */
module SchemaRegistry {
  import opened Options
  import opened Xml
  import opened Locators
  import opened UriText
  import opened SchemaTree

  // ----- lower case -----

  /** `strings.ToLower` as far as its result can be ASCII: the Kelvin sign and the dotted capital I become letters. */
  function ToLower(s: string): string {
    if s == "" then "" else [HeadLower(s)] + ToLower(s[HeadLength(s)..])
  }

  predicate Kelvin(s: string) {
    Byte(s, 0, 0xE2, 0xE2) && Byte(s, 1, 0x84, 0x84) && Byte(s, 2, 0xAA, 0xAA)
  }

  predicate DottedI(s: string) {
    Byte(s, 0, 0xC4, 0xC4) && Byte(s, 1, 0xB0, 0xB0)
  }

  /** How many bytes of `s` its first lower-case byte replaces. */
  function HeadLength(s: string): (n: nat)
    requires s != ""
    ensures 0 < n <= |s|
  {
    if Kelvin(s) then 3 else if DottedI(s) then 2 else 1
  }

  function HeadLower(s: string): char
    requires s != ""
  {
    if Kelvin(s) then 'k' else if DottedI(s) then 'i' else Lower(s[0])
  }

  predicate Ascii(s: string) {
    forall i :: 0 <= i < |s| ==> s[i] as int < 128
  }

  /** Without the long s, which folds to `s` but is no capital of it. */
  predicate NoLongS(s: string) {
    forall i :: 0 <= i < |s| - 1 ==> !(s[i] as int == 0xC5 && s[i + 1] as int == 0xBF)
  }

  lemma {:induction false} FoldIsLower(s: string)
    requires Ascii(Fold(s)) && NoLongS(s)
    ensures ToLower(s) == Fold(s)
  {
    if s != "" {
      var f := Fold(s);
      if Byte(s, 0, 0xE2, 0xE2) && Byte(s, 1, 0x84, 0x84) && Byte(s, 2, 0xAA, 0xAA) {
        assert Fold(s[3..]) == f[1..];
        FoldIsLower(s[3..]);
      } else {
        assert f == [Lower(s[0])] + Fold(s[1..]);
        assert f[0] == Lower(s[0]) && Fold(s[1..]) == f[1..];
        FoldIsLower(s[1..]);
      }
    }
  }

  lemma {:induction false} AsciiFold(s: string)
    requires Ascii(s)
    ensures Ascii(Fold(s)) && ToLower(s) == Fold(s)
  {
    if s != "" {
      AsciiFold(s[1..]);
    }
  }

  lemma {:induction false} HeadSlash(a: string, b: string)
    requires a != ""
    ensures HeadLength(a + "/" + b) == HeadLength(a) && HeadLower(a + "/" + b) == HeadLower(a)
  {
    var s := a + "/" + b;
    assert s[0] == a[0] && (|a| > 1 ==> s[1] == a[1]) && (|a| > 2 ==> s[2] == a[2]) && s[|a|] == '/';
  }

  lemma {:induction false} LowerSlash(a: string, b: string)
    ensures ToLower(a + "/" + b) == ToLower(a) + "/" + ToLower(b)
  {
    var s := a + "/" + b;
    if a == "" {
      assert s == "/" + b && s[1..] == b;
      assert !Kelvin(s) && !DottedI(s);
    } else {
      HeadSlash(a, b);
      hide HeadLength, HeadLower;
      var n := HeadLength(a);
      assert s[n..] == a[n..] + "/" + b;
      LowerSlash(a[n..], b);
    }
  }

  function LowerEach(parts: seq<string>): (r: seq<string>)
    ensures |r| == |parts|
  {
    seq(|parts|, i requires 0 <= i < |parts| => ToLower(parts[i]))
  }

  lemma {:induction false} LowerJoin(parts: seq<string>)
    requires |parts| > 0
    ensures ToLower(Join(parts, '/')) == Join(LowerEach(parts), '/')
  {
    hide ToLower;
    if |parts| > 1 {
      LowerJoin(parts[1..]);
      LowerSlash(parts[0], Join(parts[1..], '/'));
      assert LowerEach(parts)[1..] == LowerEach(parts[1..]);
    }
  }

  /** Parts that fold together have the same key. */
  lemma {:induction false} SameKey(segs: seq<string>, root: seq<string>)
    requires |segs| == |root| > 0
    requires forall i :: 0 <= i < |root| ==> EqualFold(segs[i], root[i]) && Ascii(root[i]) && NoLongS(segs[i])
    ensures ToLower(Join(segs, '/')) == ToLower(Join(root, '/'))
  {
    forall i | 0 <= i < |root| ensures ToLower(segs[i]) == ToLower(root[i]) {
      AsciiFold(root[i]);
      FoldIsLower(segs[i]);
    }
    hide ToLower, EqualFold, Ascii, NoLongS;
    LowerJoin(segs);
    LowerJoin(root);
    assert LowerEach(segs) == LowerEach(root);
  }

  // ----- the index -----

  datatype Registry = Registry(trees: seq<Tree>, byRoot: map<string, seq<Tree>>)

  function KeyOf(t: Tree): string {
    ToLower(t.root.uri)
  }

  /** The index holds each tree under its own key, and nothing else. */
  predicate Indexed(r: Registry) {
    && (forall t :: t in r.trees ==> KeyOf(t) in r.byRoot && t in r.byRoot[KeyOf(t)])
    && (forall k, t :: k in r.byRoot && t in r.byRoot[k] ==> t in r.trees && KeyOf(t) == k)
  }

  method NewRegistry(trees: seq<Tree>) returns (r: Registry)
    ensures r.trees == trees && Indexed(r)
  {
    hide KeyOf;
    var byRoot: map<string, seq<Tree>> := map[];
    assert trees[..0] == [];
    for i := 0 to |trees|
      invariant Indexed(Registry(trees[..i], byRoot))
    {
      var t := trees[i];
      var key := KeyOf(t);
      byRoot := byRoot[key := (if key in byRoot then byRoot[key] else []) + [t]];
      assert trees[..i + 1] == trees[..i] + [t];
    }
    assert trees[..|trees|] == trees;
    r := Registry(trees, byRoot);
  }

  // ----- candidates -----

  /** The key of the first `i` segments. */
  function PrefixKey(segs: seq<string>, i: nat): string
    requires 1 <= i <= |segs|
  {
    ToLower(Join(segs[..i], '/'))
  }

  /** The key of the first `i` segments without the second. */
  function LegacyKey(segs: seq<string>, i: nat): string
    requires 2 <= i <= |segs|
  {
    ToLower(Join([segs[0]] + segs[2..i], '/'))
  }

  predicate ByPrefix(t: Tree, segs: seq<string>, lo: nat) {
    exists i: nat :: lo <= i <= |segs| && 1 <= i && !(i == 1 && segs[0] == ".") && KeyOf(t) == PrefixKey(segs, i)
  }

  predicate ByLegacy(t: Tree, segs: seq<string>, lo: nat) {
    t.scope == LEGACY && exists i: nat :: lo <= i <= |segs| && 2 <= i && KeyOf(t) == LegacyKey(segs, i)
  }

  predicate IsCandidate(t: Tree, segs: seq<string>) {
    || ByPrefix(t, segs, 1)
    || (|segs| > 1 && EqualFold(segs[1], "Device") && ByLegacy(t, segs, 2))
  }

  method PrefixCandidates(r: Registry, segs: seq<string>) returns (out: seq<Tree>)
    requires Indexed(r)
    ensures forall t :: t in out <==> t in r.trees && ByPrefix(t, segs, 1)
  {
    hide ToLower, Join;
    out := [];
    var i := |segs|;
    while i >= 1
      invariant 0 <= i <= |segs|
      invariant forall t :: t in out <==> t in r.trees && ByPrefix(t, segs, i + 1)
    {
      if i == 1 && segs[0] == "." {
        assert forall t :: ByPrefix(t, segs, 1) == ByPrefix(t, segs, 2);
        return;
      }
      var key := PrefixKey(segs, i);
      forall t ensures ByPrefix(t, segs, i) <==> ByPrefix(t, segs, i + 1) || KeyOf(t) == key {
      }
      hide ByPrefix, PrefixKey, KeyOf;
      if key in r.byRoot {
        out := out + r.byRoot[key];
      }
      i := i - 1;
    }
  }

  method KeepLegacy(ts: seq<Tree>) returns (out: seq<Tree>)
    ensures forall t :: t in out <==> t in ts && t.scope == LEGACY
  {
    out := [];
    for i := 0 to |ts|
      invariant forall t :: t in out <==> t in ts[..i] && t.scope == LEGACY
    {
      assert ts[..i + 1] == ts[..i] + [ts[i]];
      if ts[i].scope == LEGACY {
        out := out + [ts[i]];
      }
    }
    assert ts[..|ts|] == ts;
  }

  method LegacyCandidates(r: Registry, segs: seq<string>) returns (out: seq<Tree>)
    requires Indexed(r) && |segs| > 1
    ensures forall t :: t in out <==> t in r.trees && ByLegacy(t, segs, 2)
  {
    hide ToLower, Join;
    out := [];
    var i := |segs|;
    while i >= 2
      invariant 1 <= i <= |segs|
      invariant forall t :: t in out <==> t in r.trees && ByLegacy(t, segs, i + 1)
    {
      var key := LegacyKey(segs, i);
      forall t ensures ByLegacy(t, segs, i) <==> ByLegacy(t, segs, i + 1) || (t.scope == LEGACY && KeyOf(t) == key) {
      }
      hide ByLegacy, LegacyKey, KeyOf;
      if key in r.byRoot {
        var kept := KeepLegacy(r.byRoot[key]);
        out := out + kept;
      }
      i := i - 1;
    }
  }

  predicate LongestFirst(ts: seq<Tree>) {
    forall i, j :: 0 <= i < j < |ts| ==> |ts[i].root.uri| >= |ts[j].root.uri|
  }

  lemma {:induction false} InsertLongest(p: seq<Tree>, k: nat, x: Tree)
    requires LongestFirst(p) && k <= |p|
    requires forall j :: 0 <= j < k ==> |p[j].root.uri| >= |x.root.uri|
    requires k < |p| ==> |p[k].root.uri| < |x.root.uri|
    ensures LongestFirst(p[..k] + [x] + p[k..])
    ensures forall t :: t in p[..k] + [x] + p[k..] <==> t in p || t == x
  {
    assert p == p[..k] + p[k..];
  }

  /** `sort.SliceStable` by the length of the root. */
  method SortByRoot(ts: seq<Tree>) returns (p: seq<Tree>)
    ensures LongestFirst(p) && forall t :: t in p <==> t in ts
  {
    p := [];
    for i := 0 to |ts|
      invariant LongestFirst(p) && forall t :: t in p <==> t in ts[..i]
    {
      hide LongestFirst;
      var x := ts[i];
      var k := 0;
      while k < |p| && |p[k].root.uri| >= |x.root.uri|
        invariant 0 <= k <= |p|
        invariant forall j :: 0 <= j < k ==> |p[j].root.uri| >= |x.root.uri|
      {
        k := k + 1;
      }
      InsertLongest(p, k, x);
      assert ts[..i + 1] == ts[..i] + [x];
      p := p[..k] + [x] + p[k..];
    }
    assert ts[..|ts|] == ts;
  }

  method Candidates(r: Registry, uri: string) returns (out: seq<Tree>)
    requires Indexed(r)
    ensures LongestFirst(out) && forall t :: t in out <==> t in r.trees && IsCandidate(t, Segments(uri))
  {
    hide ByPrefix, ByLegacy, EqualFold, Segments, Indexed, LongestFirst;
    var segs := SplitSegments(uri);
    out := PrefixCandidates(r, segs);
    if |segs| > 1 && EqualFold(segs[1], "Device") {
      var legacy := LegacyCandidates(r, segs);
      out := out + legacy;
    }
    out := SortByRoot(out);
  }

  // ----- the index agrees with a full scan -----

  /** An ASCII root of at least two segments, written as its own segments; a legacy one does not begin with ./Device. */
  predicate WellRooted(t: Tree) {
    var parts := Segments(t.root.uri);
    && |parts| >= 2 && t.root.uri == Join(parts, '/')
    && (forall i :: 0 <= i < |parts| ==> Ascii(parts[i]) && '/' !in parts[i])
    && (t.scope == LEGACY ==> !EqualFold(parts[1], "Device"))
  }

  predicate NoLongSIn(segs: seq<string>) {
    forall i :: 0 <= i < |segs| ==> NoLongS(segs[i])
  }

  /** The tree resolves the segments, and no long s stands where they match its root. */
  predicate Visible(t: Tree, segs: seq<string>) {
    var norm, k := Normalised(t, segs), |Segments(t.root.uri)|;
    LookupSegments(t, segs).Some? && k <= |norm| && NoLongSIn(norm[..k])
  }

  /** A visible tree is found through its root. */
  lemma {:induction false} VisibleIsCandidate(t: Tree, segs: seq<string>)
    requires WellRooted(t) && Visible(t, segs)
    ensures IsCandidate(t, segs)
  {
    hide Walk, NoLongS, Ascii;
    var parts := Segments(t.root.uri);
    var k := |parts|;
    var norm := Normalised(t, segs);
    assert HasRoot(norm, parts);
    hide Segments, Normalised, EqualFold, ToLower, Join;
    SameKey(norm[..k], parts);
    assert KeyOf(t) == ToLower(Join(norm[..k], '/'));
    NormalisedIs(t, segs, k);
  }

  lemma {:induction false} NormalisedIs(t: Tree, segs: seq<string>, k: nat)
    requires 2 <= k <= |Normalised(t, segs)| && KeyOf(t) == ToLower(Join(Normalised(t, segs)[..k], '/'))
    ensures IsCandidate(t, segs)
  {
    hide EqualFold, ToLower, Join, KeyOf;
    if t.scope == LEGACY && |segs| > 1 && EqualFold(segs[1], "Device") {
      assert Normalised(t, segs)[..k] == [segs[0]] + segs[2..k + 1];
      assert KeyOf(t) == LegacyKey(segs, k + 1);
    } else {
      assert Normalised(t, segs) == segs;
      assert KeyOf(t) == PrefixKey(segs, k);
    }
  }

  // ----- and the other way round: a resolving candidate is visible -----

  function Slashes(s: string): nat {
    if s == "" then 0 else (if s[0] == '/' then 1 else 0) + Slashes(s[1..])
  }

  lemma {:induction false} SlashesNone(s: string)
    ensures Slashes(s) == 0 <==> '/' !in s
  {
    if s != "" {
      SlashesNone(s[1..]);
      assert s == [s[0]] + s[1..];
    }
  }

  lemma {:induction false} SlashesConcat(a: string, b: string)
    ensures Slashes(a + b) == Slashes(a) + Slashes(b)
  {
    if a == "" {
      assert a + b == b;
    } else {
      assert (a + b)[1..] == a[1..] + b;
      SlashesConcat(a[1..], b);
    }
  }

  lemma {:induction false} SlashesJoin(parts: seq<string>)
    requires |parts| > 0 && forall i :: 0 <= i < |parts| ==> '/' !in parts[i]
    ensures Slashes(Join(parts, '/')) == |parts| - 1
  {
    SlashesNone(parts[0]);
    if |parts| > 1 {
      SlashesJoin(parts[1..]);
      var rest := Join(parts[1..], '/');
      SlashesConcat(parts[0] + ['/'], rest);
      SlashesConcat(parts[0], ['/']);
      assert ['/'][1..] == "";
      assert Slashes(['/']) == 1;
    }
  }

  lemma {:induction false} HeadSkips(s: string)
    requires s != ""
    ensures Slashes(s) == Slashes(s[HeadLength(s)..]) + (if HeadLower(s) == '/' then 1 else 0)
    ensures s[0] as int == 0xC5 ==> HeadLength(s) == 1 && HeadLower(s) as int == 0xC5
    ensures forall i :: 0 < i < HeadLength(s) ==> s[i] as int != 0xC5
  {
    if Kelvin(s) {
      assert s[1..][1..] == s[2..] && s[2..][1..] == s[3..];
      assert Slashes(s[1..]) == Slashes(s[2..]) && Slashes(s[2..]) == Slashes(s[3..]);
    } else if DottedI(s) {
      assert s[1..][1..] == s[2..];
      assert Slashes(s[1..]) == Slashes(s[2..]);
    }
  }

  /** Lower-casing keeps the slashes, and never removes the first byte of a long s. */
  lemma {:induction false} LowerKeeps(s: string)
    ensures Slashes(ToLower(s)) == Slashes(s)
    ensures Ascii(ToLower(s)) ==> forall i :: 0 <= i < |s| ==> s[i] as int != 0xC5
  {
    if s != "" {
      HeadSkips(s);
      hide HeadLength, HeadLower;
      var n, rest := HeadLength(s), ToLower(s[HeadLength(s)..]);
      LowerKeeps(s[n..]);
      var l := [HeadLower(s)] + rest;
      assert l[1..] == rest;
      if Ascii(l) {
        assert l[0] == HeadLower(s) && forall i :: 0 <= i < |rest| ==> rest[i] == l[i + 1];
        forall i | 0 <= i < |s| ensures s[i] as int != 0xC5 {
          if i >= n { assert s[i] == s[n..][i - n]; }
        }
      }
    }
  }

  lemma {:induction false} JoinHolds(parts: seq<string>, c: char)
    requires |parts| > 0 && c !in Join(parts, '/')
    ensures forall i :: 0 <= i < |parts| ==> c !in parts[i]
  {
    if |parts| > 1 {
      JoinHolds(parts[1..], c);
      forall i | 0 <= i < |parts| ensures c !in parts[i] {
        if i > 0 { assert parts[i] == parts[1..][i - 1]; }
      }
    }
  }

  /** Segments whose key is that of an ASCII root have no long s. */
  lemma {:induction false} KeyPlain(list: seq<string>, key: string)
    requires |list| > 0 && ToLower(Join(list, '/')) == key && Ascii(key)
    ensures NoLongSIn(list)
  {
    var j := Join(list, '/');
    LowerKeeps(j);
    assert (0xC5 as char) !in j;
    hide Join, ToLower;
    JoinHolds(list, 0xC5 as char);
    forall i | 0 <= i < |list| ensures NoLongS(list[i]) {
      assert (0xC5 as char) !in list[i];
    }
  }

  lemma {:induction false} FoldSlash(s: string)
    ensures '/' in s ==> '/' in Fold(s)
  {
    if s != "" && '/' in s {
      assert s == [s[0]] + s[1..];
      if Byte(s, 0, 0xC5, 0xC5) && Byte(s, 1, 0xBF, 0xBF) {
        assert s == s[..2] + s[2..];
        FoldSlash(s[2..]);
      } else if Byte(s, 0, 0xE2, 0xE2) && Byte(s, 1, 0x84, 0x84) && Byte(s, 2, 0xAA, 0xAA) {
        assert s == s[..3] + s[3..];
        FoldSlash(s[3..]);
      } else {
        FoldSlash(s[1..]);
      }
    }
  }

  lemma {:induction false} FoldNoSlash(s: string)
    requires '/' !in s
    ensures '/' !in Fold(s)
  {
    if s != "" {
      if Byte(s, 0, 0xC5, 0xC5) && Byte(s, 1, 0xBF, 0xBF) {
        assert '/' !in s[2..];
        FoldNoSlash(s[2..]);
      } else if Byte(s, 0, 0xE2, 0xE2) && Byte(s, 1, 0x84, 0x84) && Byte(s, 2, 0xAA, 0xAA) {
        assert '/' !in s[3..];
        FoldNoSlash(s[3..]);
      } else {
        assert '/' !in s[1..] && s[0] in s;
        FoldNoSlash(s[1..]);
      }
    }
  }

  /** A segment that folds onto a slash-free one is slash-free. */
  lemma {:induction false} FoldedSlashFree(seg: string, part: string)
    requires EqualFold(seg, part) && '/' !in part
    ensures '/' !in seg
  {
    FoldSlash(seg);
    FoldNoSlash(part);
  }

  lemma {:induction false} AsciiKey(t: Tree)
    requires WellRooted(t)
    ensures Ascii(KeyOf(t)) && Slashes(KeyOf(t)) == |Segments(t.root.uri)| - 1
    ensures KeyOf(t) == ToLower(Join(Segments(t.root.uri), '/'))
  {
    var parts := Segments(t.root.uri);
    hide Segments;
    SlashesJoin(parts);
    LowerKeeps(t.root.uri);
    AsciiJoin(parts);
    AsciiFold(t.root.uri);
  }

  lemma {:induction false} AsciiJoin(parts: seq<string>)
    requires |parts| > 0 && forall i :: 0 <= i < |parts| ==> Ascii(parts[i])
    ensures Ascii(Join(parts, '/'))
  {
    if |parts| > 1 {
      AsciiJoin(parts[1..]);
    }
  }

  /** `list` has the key of the root and its first segments are slash-free: then it is as long as the root at least. */
  lemma {:induction false} KeyLength(t: Tree, list: seq<string>, k: nat)
    requires WellRooted(t) && k == |Segments(t.root.uri)| && |list| > 0 && ToLower(Join(list, '/')) == KeyOf(t)
    requires forall i :: 0 <= i < |list| && i < k ==> '/' !in list[i]
    ensures |list| >= k
  {
    hide Segments;
    AsciiKey(t);
    if |list| < k {
      SlashesJoin(list);
      LowerKeeps(Join(list, '/'));
    }
  }

  lemma {:induction false} ResolvingSlashFree(t: Tree, segs: seq<string>)
    requires WellRooted(t) && LookupSegments(t, segs).Some?
    ensures var norm, k := Normalised(t, segs), |Segments(t.root.uri)|;
            k <= |norm| && forall i :: 0 <= i < k ==> '/' !in norm[i]
  {
    hide Segments, Normalised, Walk, EqualFold, Ascii;
    var norm, parts := Normalised(t, segs), Segments(t.root.uri);
    assert HasRoot(norm, parts);
    forall i | 0 <= i < |parts| ensures '/' !in norm[i] {
      FoldedSlashFree(norm[i], parts[i]);
    }
  }

  predicate StartsWithDevice(segs: seq<string>) {
    |segs| > 1 && EqualFold(segs[1], "Device")
  }

  /** Found as written. */
  lemma {:induction false} PlainCandidate(t: Tree, segs: seq<string>, i: nat)
    requires WellRooted(t) && LookupSegments(t, segs).Some? && !(t.scope == LEGACY && StartsWithDevice(segs))
    requires 1 <= i <= |segs| && KeyOf(t) == PrefixKey(segs, i)
    ensures Visible(t, segs)
  {
    hide Segments, EqualFold, ToLower, Join, LookupSegments, NoLongS, WellRooted, KeyOf;
    ResolvingSlashFree(t, segs);
    AsciiKey(t);
    var k, list := |Segments(t.root.uri)|, segs[..i];
    assert Normalised(t, segs) == segs;
    KeyPlain(list, KeyOf(t));
    hide Normalised, Ascii, PrefixKey;
    forall j | 0 <= j < |list| && j < k ensures '/' !in list[j] { assert list[j] == segs[j]; }
    KeyLength(t, list, k);
    forall j | 0 <= j < k ensures NoLongS(segs[..k][j]) { assert segs[..k][j] == list[j]; }
  }

  /** A legacy tree found behind ./Device. */
  lemma {:induction false} LegacyCandidate(t: Tree, segs: seq<string>, i: nat)
    requires WellRooted(t) && LookupSegments(t, segs).Some? && t.scope == LEGACY && StartsWithDevice(segs)
    requires 2 <= i <= |segs| && KeyOf(t) == LegacyKey(segs, i)
    ensures Visible(t, segs)
  {
    hide Segments, EqualFold, ToLower, Join, LookupSegments, NoLongS, WellRooted, KeyOf;
    ResolvingSlashFree(t, segs);
    AsciiKey(t);
    var k, norm, list := |Segments(t.root.uri)|, Normalised(t, segs), [segs[0]] + segs[2..i];
    assert norm == [segs[0]] + segs[2..];
    assert list == norm[..i - 1];
    KeyPlain(list, KeyOf(t));
    hide Normalised, Ascii, LegacyKey;
    forall j | 0 <= j < |list| && j < k ensures '/' !in list[j] { assert list[j] == norm[j]; }
    KeyLength(t, list, k);
    forall j | 0 <= j < k ensures NoLongS(norm[..k][j]) { assert norm[..k][j] == list[j]; }
  }

  lemma {:induction false} DeviceSlashFree(seg: string)
    requires EqualFold(seg, "Device")
    ensures '/' !in seg
  {
    FoldedSlashFree(seg, "Device");
  }

  /** A legacy tree is never found by the whole URI ./Device/X alone, unless X has its root's length as well. */
  lemma {:induction false} MixedCandidate(t: Tree, segs: seq<string>, i: nat)
    requires WellRooted(t) && LookupSegments(t, segs).Some? && t.scope == LEGACY && StartsWithDevice(segs)
    requires 1 <= i <= |segs| && KeyOf(t) == PrefixKey(segs, i)
    ensures Visible(t, segs)
  {
    hide Segments, EqualFold, ToLower, Join, LookupSegments, NoLongS, WellRooted, KeyOf;
    ResolvingSlashFree(t, segs);
    AsciiKey(t);
    DeviceSlashFree(segs[1]);
    var k, norm, list := |Segments(t.root.uri)|, Normalised(t, segs), segs[..i];
    assert norm == [segs[0]] + segs[2..];
    KeyPlain(list, KeyOf(t));
    hide Normalised, Ascii, PrefixKey;
    forall j | 0 <= j < |list| && j < k ensures '/' !in list[j] {
      if j != 1 { assert list[j] == norm[if j == 0 then 0 else j - 1]; }
    }
    KeyLength(t, list, k);
    if i == k {
      RootParts(t);
      KeyIsRoot(t, list);
      LegacyRoot(t);
    } else {
      forall j | 0 <= j < k ensures NoLongS(norm[..k][j]) {
        assert norm[j] == list[if j == 0 then 0 else j + 1];
      }
    }
  }

  lemma {:induction false} LegacyRoot(t: Tree)
    requires WellRooted(t) && t.scope == LEGACY
    ensures !EqualFold(Segments(t.root.uri)[1], "Device")
  {
  }

  /** With as many segments as the root, the second of them would be the root's own. */
  lemma {:induction false} KeyIsRoot(t: Tree, list: seq<string>)
    requires WellRooted(t) && |list| == |Segments(t.root.uri)| && ToLower(Join(list, '/')) == KeyOf(t)
    requires (forall i :: 0 <= i < |list| ==> '/' !in list[i]) && NoLongSIn(list) && EqualFold(list[1], "Device")
    ensures EqualFold(Segments(t.root.uri)[1], "Device")
  {
    AsciiKey(t);
    var parts := Segments(t.root.uri);
    RootParts(t);
    hide Segments, WellRooted, KeyOf, EqualFold, ToLower, Join, Ascii, NoLongS;
    LowerJoin(list);
    LowerJoin(parts);
    LowerSlashFree(list);
    LowerSlashFree(parts);
    SplitJoin(LowerEach(list), '/');
    SplitJoin(LowerEach(parts), '/');
    assert ToLower(list[1]) == LowerEach(list)[1] == LowerEach(parts)[1] == ToLower(parts[1]);
    SameLowerFolds(list[1], parts[1]);
  }

  lemma {:induction false} RootParts(t: Tree)
    requires WellRooted(t)
    ensures var parts := Segments(t.root.uri);
            |parts| >= 2 && (forall i :: 0 <= i < |parts| ==> '/' !in parts[i]) && Ascii(parts[1])
  {
  }

  lemma {:induction false} SameLowerFolds(seg: string, part: string)
    requires EqualFold(seg, "Device") && NoLongS(seg) && Ascii(part) && ToLower(seg) == ToLower(part)
    ensures EqualFold(part, "Device")
  {
    AsciiFold("Device");
    FoldIsLower(seg);
    AsciiFold(part);
  }

  lemma {:induction false} LowerSlashFree(parts: seq<string>)
    requires forall i :: 0 <= i < |parts| ==> '/' !in parts[i]
    ensures forall p :: p in LowerEach(parts) ==> '/' !in p
  {
    hide ToLower;
    forall p | p in LowerEach(parts) ensures '/' !in p {
      var i :| 0 <= i < |parts| && p == LowerEach(parts)[i];
      SlashesNone(parts[i]);
      SlashesNone(ToLower(parts[i]));
      LowerKeeps(parts[i]);
    }
  }

  /** Among the trees that resolve a URI, the index finds exactly the visible ones. */
  lemma {:induction false} CandidateIffVisible(t: Tree, segs: seq<string>)
    requires WellRooted(t) && LookupSegments(t, segs).Some?
    ensures IsCandidate(t, segs) <==> Visible(t, segs)
  {
    if Visible(t, segs) {
      VisibleIsCandidate(t, segs);
    } else if IsCandidate(t, segs) {
      hide Visible, LookupSegments, WellRooted, KeyOf, PrefixKey, LegacyKey;
      if ByPrefix(t, segs, 1) {
        var i: nat :| 1 <= i <= |segs| && !(i == 1 && segs[0] == ".") && KeyOf(t) == PrefixKey(segs, i);
        if t.scope == LEGACY && StartsWithDevice(segs) { MixedCandidate(t, segs, i); } else { PlainCandidate(t, segs, i); }
      } else {
        var i: nat :| 2 <= i <= |segs| && KeyOf(t) == LegacyKey(segs, i);
        LegacyCandidate(t, segs, i);
      }
    }
  }

  // ----- Lookup -----

  datatype Found = Found(match_: Match, tree: Tree)

  function Aliased(uri: string): string {
    "./Device" + if uri != "" && uri[0] == '.' then uri[1..] else uri
  }

  predicate HasScopePrefix(uri: string) {
    var l := ToLower(uri);
    "./device/" <= l || "./user/" <= l || l == "./device" || l == "./user"
  }

  /** A scan over all trees would find a visible one. */
  ghost predicate Resolves(r: Registry, uri: string) {
    exists t :: t in r.trees && Visible(t, Segments(uri))
  }

  /** The tree resolves the URI and no visible tree with a longer root does. */
  ghost predicate Best(r: Registry, uri: string, f: Found) {
    && f.tree in r.trees && Lookup(f.tree, uri) == Some(f.match_)
    && forall t :: t in r.trees && Visible(t, Segments(uri)) ==> |t.root.uri| <= |f.tree.root.uri|
  }

  /** The loop of `Lookup` over one list of candidates. */
  method FirstMatch(r: Registry, uri: string) returns (found: Option<Found>)
    requires Indexed(r) && forall t :: t in r.trees ==> WellRooted(t)
    ensures found.Some? <==> Resolves(r, uri)
    ensures found.Some? ==> Best(r, uri, found.value)
  {
    hide IsCandidate, Segments, LookupSegments, WellRooted, Indexed, Visible;
    var cs := Candidates(r, uri);
    forall t | t in r.trees ensures Visible(t, Segments(uri)) <==> t in cs && Lookup(t, uri).Some? {
      if Lookup(t, uri).Some? { CandidateIffVisible(t, Segments(uri)); } else { VisibleResolves(t, Segments(uri)); }
    }
    hide Lookup;
    for i := 0 to |cs|
      invariant forall j :: 0 <= j < i ==> Lookup(cs[j], uri).None?
    {
      var m := Resolve(cs[i], uri);
      if m.Some? {
        assert cs[i] in cs;
        forall t | t in r.trees && Visible(t, Segments(uri)) ensures |t.root.uri| <= |cs[i].root.uri| {
          var j :| 0 <= j < |cs| && cs[j] == t;
        }
        return Some(Found(m.value, cs[i]));
      }
    }
    forall t | t in r.trees ensures !Visible(t, Segments(uri)) {
      if t in cs { var j :| 0 <= j < |cs| && cs[j] == t; }
    }
    found := None;
  }

  lemma {:induction false} VisibleResolves(t: Tree, segs: seq<string>)
    ensures Visible(t, segs) ==> LookupSegments(t, segs).Some?
  {
  }

  /**
   `Registry.Lookup`: a URI is found exactly when some tree resolves it, as
   written or with ./Device supplied, with no long s in the part that matches
   its root; and always in the tree with the longest root among those.
   */
  method LookupUri(r: Registry, uri: string) returns (found: Option<Found>)
    requires Indexed(r) && forall t :: t in r.trees ==> WellRooted(t)
    ensures found.Some? <==> Resolves(r, uri) || (!HasScopePrefix(uri) && Resolves(r, Aliased(uri)))
    ensures Resolves(r, uri) ==> found.Some? && Best(r, uri, found.value)
    ensures !Resolves(r, uri) && found.Some? ==> Best(r, Aliased(uri), found.value)
  {
    hide Indexed, WellRooted, Resolves, Best, HasScopePrefix, Aliased;
    found := FirstMatch(r, uri);
    if found.None? && !HasScopePrefix(uri) {
      found := FirstMatch(r, Aliased(uri));
    }
  }

  /** On ASCII segments nothing is hidden: visible means resolved. */
  lemma {:induction false} AsciiVisible(t: Tree, segs: seq<string>)
    requires forall i :: 0 <= i < |segs| ==> Ascii(segs[i])
    ensures Visible(t, segs) <==> LookupSegments(t, segs).Some?
  {
    hide Segments, Walk, EqualFold;
    var norm := Normalised(t, segs);
    assert forall i :: 0 <= i < |norm| ==> Ascii(norm[i]);
  }

  // ----- legacy roots, with and without ./Device -----

  /** A legacy tree resolves ./Device/X as it resolves ./X. */
  lemma {:induction false} LegacyEither(t: Tree, first: string, device: string, rest: seq<string>)
    requires t.scope == LEGACY && EqualFold(device, "Device") && (|rest| > 0 ==> !EqualFold(rest[0], "Device"))
    ensures LookupSegments(t, [first, device] + rest) == LookupSegments(t, [first] + rest)
  {
    hide EqualFold, Walk, Segments;
    var long, short := [first, device] + rest, [first] + rest;
    assert long[2..] == rest && long[1] == device;
    assert Normalised(t, long) == short && Normalised(t, short) == short;
  }

  // ----- where the index and the scan part -----

  const LONG_S: string := [0xC5 as char, 0xBF as char]

  const LONG_S_URI := "./" + LONG_S

  lemma {:induction false} DecodedAsIs(p: string)
    requires '%' !in p
    ensures Decoded(p) == p
  {
    if p != "" {
      DecodedAsIs(p[1..]);
      assert p == [p[0]] + p[1..];
    }
  }

  lemma {:induction false} SegmentsAsWritten(parts: seq<string>)
    requires |parts| > 0 && forall p :: p in parts ==> Plain(p) && '%' !in p
    ensures Segments(Join(parts, '/')) == parts
  {
    hide Segments, Join, Plain, Decoded;
    SegmentsOfJoin(parts);
    forall i | 0 <= i < |parts| ensures Decoded(parts[i]) == parts[i] {
      assert parts[i] in parts;
      DecodedAsIs(parts[i]);
    }
  }

  /** The segments of the root, of the URI with the long s, and of the same below ./Device. */
  lemma {:induction false} WrittenSegments()
    ensures Segments("./s") == [".", "s"] && "./s" == Join([".", "s"], '/')
    ensures Segments(LONG_S_URI) == [".", LONG_S]
    ensures Segments(Aliased(LONG_S_URI)) == [".", "Device", LONG_S]
  {
    hide Segments, Join;
    JoinTwo(".", "s");
    assert "./s" == "." + "/" + "s";
    SegmentsAsWritten([".", "s"]);
    JoinTwo(".", LONG_S);
    assert LONG_S_URI == "." + "/" + LONG_S;
    SegmentsAsWritten([".", LONG_S]);
    JoinThree(".", "Device", LONG_S);
    assert Aliased(LONG_S_URI) == "." + "/" + ("Device" + "/" + LONG_S);
    SegmentsAsWritten([".", "Device", LONG_S]);
  }

  lemma {:induction false} JoinThree(a: string, b: string, c: string)
    ensures Join([a, b, c], '/') == a + "/" + (b + "/" + c)
  {
    assert [a, b, c][1..] == [b, c];
    JoinTwo(b, c);
  }

  lemma {:induction false} FoldsOf()
    ensures EqualFold(LONG_S, "s") && EqualFold(".", ".") && !EqualFold("Device", "s")
  {
    assert Fold(LONG_S) == "s" by { assert LONG_S[2..] == ""; }
    assert Fold("s") == "s" by { assert "s"[1..] == ""; }
    assert Fold("Device")[0] == 'd';
  }

  /** The long s folds to `s` but is not lower-cased to it, so the index misses a tree that a scan would find. */
  lemma {:induction false} LongSMissed(t: Tree)
    requires t.scope != LEGACY && t.root.uri == "./s"
    ensures WellRooted(t) && Lookup(t, LONG_S_URI) == Some(Match(t.root, map[]))
    ensures !IsCandidate(t, Segments(LONG_S_URI))
    ensures !Visible(t, Segments(LONG_S_URI)) && !Visible(t, Segments(Aliased(LONG_S_URI)))
  {
    hide Segments, Join, EqualFold, Aliased;
    WrittenSegments();
    FoldsOf();
    assert WellRooted(t);
    var segs := [".", LONG_S];
    assert segs[2..] == [];
    KeysDiffer(t);
    if Visible(t, segs) { VisibleIsCandidate(t, segs); }
  }

  /** A registry that holds just such a tree does not find the URI that the tree resolves. */
  method LongSNotFound(t: Tree) returns (found: Option<Found>)
    requires t.scope != LEGACY && t.root.uri == "./s"
    ensures Lookup(t, LONG_S_URI).Some? && found == None
  {
    hide WellRooted, Segments, Aliased, Visible, Indexed, HasScopePrefix, Best, IsCandidate, Lookup;
    LongSMissed(t);
    var r := NewRegistry([t]);
    found := LookupUri(r, LONG_S_URI);
  }

  lemma {:induction false} KeysDiffer(t: Tree)
    requires t.root.uri == "./s" && t.scope != LEGACY
    ensures !IsCandidate(t, [".", LONG_S])
  {
    hide ToLower, Join;
    var segs := [".", LONG_S];
    assert segs[..2] == segs;
    JoinTwo(".", LONG_S);
    LowerSlash(".", LONG_S);
    LowerLongS();
    LowerSlash(".", "s");
    LowerOne('s');
    assert "./s" == "." + "/" + "s";
    assert |KeyOf(t)| + 1 == |PrefixKey(segs, 2)|;
  }

  lemma {:induction false} JoinTwo(a: string, b: string)
    ensures Join([a, b], '/') == a + "/" + b
  {
    assert [a, b][1..] == [b];
    assert Join([b], '/') == b;
  }

  lemma {:induction false} LowerOne(c: char)
    requires c as int < 128
    ensures |ToLower([c])| == 1
  {
    assert [c][1..] == "";
    assert ToLower("") == "";
  }

  lemma {:induction false} LowerLongS()
    ensures |ToLower(LONG_S)| == 2
  {
    assert LONG_S[1..][1..] == "";
    assert ToLower(LONG_S[1..]) == [Lower(LONG_S[1])] + ToLower(LONG_S[1..][1..]);
  }
}
