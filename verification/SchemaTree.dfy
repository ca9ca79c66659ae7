/** CSP trees and the resolution of URIs in them, schema/csp/model.go. */
module SchemaTree {
  import opened Options
  import opened Locators
  import opened UriText

  datatype Node = Node(name: string, title: string, uri: string, dynamic: bool, caseSensitive: bool, children: seq<Node>)

  const LEGACY := "Legacy"

  datatype Tree = Tree(name: string, scope: string, root: Node)

  datatype Match = Match(node: Node, params: map<string, string>)

  // ----- Lookup -----

  predicate NameMatches(c: Node, seg: string) {
    !c.dynamic && if c.caseSensitive then c.name == seg else EqualFold(c.name, seg)
  }

  /** The segment names the static node: exactly where case matters, folded where it does not. */
  predicate Written(c: Node, seg: string) {
    !c.dynamic && (c.caseSensitive ==> seg == c.name) && (!c.caseSensitive ==> EqualFold(c.name, seg))
  }

  /** The first static child of that name. */
  function StaticChild(children: seq<Node>, seg: string): (r: Option<Node>)
    ensures r.Some? ==> r.value in children && NameMatches(r.value, seg)
    ensures r.None? ==> forall c :: c in children ==> !NameMatches(c, seg)
  {
    if children == [] then None
    else if NameMatches(children[0], seg) then Some(children[0])
    else StaticChild(children[1..], seg)
  }

  function DynamicChild(children: seq<Node>): (r: Option<Node>)
    ensures r.Some? ==> r.value in children && r.value.dynamic
  {
    if children == [] then None else if children[0].dynamic then Some(children[0]) else DynamicChild(children[1..])
  }

  /** One segment further down: a static child before a dynamic one. */
  function Down(m: Match, seg: string): Option<Match> {
    var static_ := StaticChild(m.node.children, seg);
    if static_.Some? then Some(Match(static_.value, m.params))
    else
      var dynamic_ := DynamicChild(m.node.children);
      if dynamic_.None? then None else Some(Match(dynamic_.value, m.params[dynamic_.value.title := seg]))
  }

  function Walk(m: Match, segs: seq<string>): Option<Match> {
    if segs == [] then Some(m)
    else
      var front := Walk(m, segs[..|segs| - 1]);
      if front.None? then None else Down(front.value, segs[|segs| - 1])
  }

  /** A legacy tree ignores a leading ./Device. */
  function Normalised(t: Tree, segs: seq<string>): seq<string> {
    if t.scope == LEGACY && |segs| > 1 && EqualFold(segs[1], "Device") then [segs[0]] + segs[2..] else segs
  }

  predicate HasRoot(segs: seq<string>, root: seq<string>) {
    |root| <= |segs| && forall i :: 0 <= i < |root| ==> EqualFold(segs[i], root[i])
  }

  function LookupSegments(t: Tree, uri: seq<string>): Option<Match> {
    var segs, root := Normalised(t, uri), Segments(t.root.uri);
    if !HasRoot(segs, root) then None else Walk(Match(t.root, map[]), segs[|root|..])
  }

  function Lookup(t: Tree, uri: string): Option<Match> {
    LookupSegments(t, Segments(uri))
  }

  lemma {:induction false} WalkStops(m: Match, segs: seq<string>, i: nat)
    requires i <= |segs| && Walk(m, segs[..i]).None?
    ensures Walk(m, segs).None?
    decreases |segs| - i
  {
    hide Down;
    if i < |segs| {
      assert segs[..i + 1][..i] == segs[..i];
      WalkStops(m, segs, i + 1);
    } else {
      assert segs[..i] == segs;
    }
  }

  method FindStatic(children: seq<Node>, seg: string) returns (next: Option<Node>)
    ensures next == StaticChild(children, seg)
    ensures next.None? ==> forall c :: c in children ==> !Written(c, seg)
    ensures next.Some? ==> exists k :: 0 <= k < |children| && children[k] == next.value && Written(children[k], seg) && forall j :: 0 <= j < k ==> !Written(children[j], seg)
  {
    hide EqualFold;
    for i := 0 to |children|
      invariant StaticChild(children, seg) == StaticChild(children[i..], seg)
      invariant forall j :: 0 <= j < i ==> !Written(children[j], seg)
    {
      assert children[i..][0] == children[i] && children[i..][1..] == children[i + 1..];
      if NameMatches(children[i], seg) {
        return Some(children[i]);
      }
    }
    next := None;
  }

  method FindDynamic(children: seq<Node>) returns (next: Option<Node>)
    ensures next == DynamicChild(children)
  {
    for i := 0 to |children|
      invariant DynamicChild(children) == DynamicChild(children[i..])
    {
      assert children[i..][0] == children[i] && children[i..][1..] == children[i + 1..];
      if children[i].dynamic {
        return Some(children[i]);
      }
    }
    next := None;
  }

  /** `Tree.Lookup`, with its loops. */
  method Resolve(t: Tree, uri: string) returns (r: Option<Match>)
    ensures r == Lookup(t, uri)
  {
    hide Segments, EqualFold, StaticChild, DynamicChild;
    var segs := SplitSegments(uri);
    var root := SplitSegments(t.root.uri);
    if t.scope == LEGACY && |segs| > 1 && EqualFold(segs[1], "Device") {
      segs := [segs[0]] + segs[2..];
    }
    if |segs| < |root| {
      return None;
    }
    for i := 0 to |root|
      invariant forall j :: 0 <= j < i ==> EqualFold(segs[j], root[j])
    {
      if !EqualFold(segs[i], root[i]) {
        return None;
      }
    }
    r := Descend(t.root, segs[|root|..]);
  }

  method Descend(root: Node, segs: seq<string>) returns (r: Option<Match>)
    ensures r == Walk(Match(root, map[]), segs)
  {
    hide StaticChild, DynamicChild;
    var n, params := root, map[];
    assert segs[..0] == [];
    for i := 0 to |segs|
      invariant Walk(Match(root, map[]), segs[..i]) == Some(Match(n, params))
    {
      assert segs[..i + 1][..i] == segs[..i];
      var next := FindStatic(n.children, segs[i]);
      if next.None? {
        next := FindDynamic(n.children);
        if next.Some? {
          params := params[next.value.title := segs[i]];
        }
      }
      if next.None? {
        WalkStops(Match(root, map[]), segs, i + 1);
        return None;
      }
      n := next.value;
    }
    assert segs[..|segs|] == segs;
    r := Some(Match(n, params));
  }

  // ----- which node a URI leads to -----

  /** The child at `k` is the one the segment leads to: the first static one it names, else the first dynamic one. */
  predicate LeadsAt(cs: seq<Node>, seg: string, k: nat)
    requires k < |cs|
  {
    if cs[k].dynamic then (forall j :: 0 <= j < |cs| ==> !Written(cs[j], seg)) && forall j :: 0 <= j < k ==> !cs[j].dynamic
    else Written(cs[k], seg) && forall j :: 0 <= j < k ==> !Written(cs[j], seg)
  }

  predicate Leads(n: Node, seg: string, c: Node) {
    exists k :: 0 <= k < |n.children| && n.children[k] == c && LeadsAt(n.children, seg, k)
  }

  /** The node reached from `root` through `path`. */
  function End(root: Node, path: seq<Node>): Node {
    if path == [] then root else path[|path| - 1]
  }

  /** Segment by segment, `segs` leads along `path`. */
  predicate Follows(root: Node, path: seq<Node>, segs: seq<string>) {
    |path| == |segs| && forall i :: 0 <= i < |path| ==> Leads(End(root, path[..i]), segs[i], path[i])
  }

  /** What the segments give the dynamic nodes of a path; the last one of a title counts. */
  function ValuesAlong(path: seq<Node>, segs: seq<string>): map<string, string>
    requires |path| == |segs|
  {
    if path == [] then map[]
    else
      var n := |path| - 1;
      var front := ValuesAlong(path[..n], segs[..n]);
      if path[n].dynamic then front[path[n].title := segs[n]] else front
  }

  lemma {:induction false} StaticAt(cs: seq<Node>, seg: string, k: nat)
    requires k < |cs| && Written(cs[k], seg) && forall j :: 0 <= j < k ==> !Written(cs[j], seg)
    ensures StaticChild(cs, seg) == Some(cs[k])
  {
    hide EqualFold;
    if k > 0 { StaticAt(cs[1..], seg, k - 1); }
  }

  lemma {:induction false} DynamicAt(cs: seq<Node>, k: nat)
    requires k < |cs| && cs[k].dynamic && forall j :: 0 <= j < k ==> !cs[j].dynamic
    ensures DynamicChild(cs) == Some(cs[k])
  {
    if k > 0 { DynamicAt(cs[1..], k - 1); }
  }

  lemma {:induction false} DownLeads(m: Match, seg: string, c: Node)
    requires Leads(m.node, seg, c)
    ensures Down(m, seg) == Some(Match(c, if c.dynamic then m.params[c.title := seg] else m.params))
  {
    hide EqualFold;
    var cs := m.node.children;
    var k :| 0 <= k < |cs| && cs[k] == c && LeadsAt(cs, seg, k);
    if c.dynamic {
      DynamicAt(cs, k);
    } else {
      StaticAt(cs, seg, k);
    }
  }

  lemma {:induction false} SomeLeads(cs: seq<Node>, seg: string) returns (k: nat)
    requires StaticChild(cs, seg).Some? || DynamicChild(cs).Some?
    ensures k < |cs| && LeadsAt(cs, seg, k)
    ensures (exists j :: 0 <= j < |cs| && Written(cs[j], seg)) ==> !cs[k].dynamic
  {
    hide EqualFold;
    if |cs| > 1 && (StaticChild(cs[1..], seg).Some? || DynamicChild(cs[1..]).Some?) {
      var rest := cs[1..];
      k := SomeLeads(rest, seg);
      assert forall j :: 0 < j < |cs| ==> cs[j] == rest[j - 1];
      if Written(cs[0], seg) || (cs[0].dynamic && rest[k].dynamic) { k := 0; } else { k := k + 1; }
    } else {
      k := 0;
      if |cs| > 1 { assert forall j :: 0 < j < |cs| ==> cs[j] == cs[1..][j - 1] && cs[j] in cs[1..]; }
    }
  }

  /** A segment leads somewhere or nowhere, and `Down` knows which. */
  lemma {:induction false} DownFound(m: Match, seg: string)
    ensures Down(m, seg).Some? ==> Leads(m.node, seg, Down(m, seg).value.node)
  {
    hide EqualFold, StaticChild, DynamicChild;
    if Down(m, seg).Some? {
      var k := SomeLeads(m.node.children, seg);
      DownLeads(m, seg, m.node.children[k]);
    }
  }

  lemma {:induction false} WalkFollows(root: Node, path: seq<Node>, segs: seq<string>)
    requires Follows(root, path, segs)
    ensures Walk(Match(root, map[]), segs) == Some(Match(End(root, path), ValuesAlong(path, segs)))
  {
    hide Leads, Down;
    if path != [] {
      var n := |path| - 1;
      forall i | 0 <= i < n ensures Leads(End(root, path[..n][..i]), segs[..n][i], path[..n][i]) {
        assert path[..n][..i] == path[..i];
      }
      WalkFollows(root, path[..n], segs[..n]);
      DownLeads(Match(End(root, path[..n]), ValuesAlong(path[..n], segs[..n])), segs[n], path[n]);
    }
  }

  lemma {:induction false} WalkTraced(root: Node, segs: seq<string>) returns (path: seq<Node>)
    requires Walk(Match(root, map[]), segs).Some?
    ensures Follows(root, path, segs)
  {
    hide Leads, Down;
    path := [];
    if segs != [] {
      var n := |segs| - 1;
      var front := WalkTraced(root, segs[..n]);
      WalkFollows(root, front, segs[..n]);
      var m := Walk(Match(root, map[]), segs[..n]).value;
      DownFound(m, segs[n]);
      path := front + [Down(m, segs[n]).value.node];
      assert path[..n] == front;
      forall i | 0 <= i < |path| ensures Leads(End(root, path[..i]), segs[i], path[i]) {
        if i < n { assert path[..i] == front[..i] && segs[..n][i] == segs[i]; }
      }
    }
  }

  /** A URI whose segments fold to the root's and then lead along a path resolves to the end of it, with its values. */
  lemma {:induction false} ResolvesAlong(t: Tree, uri: seq<string>, path: seq<Node>)
    requires var segs, root := Normalised(t, uri), Segments(t.root.uri);
             && |root| <= |segs| && (forall i :: 0 <= i < |root| ==> EqualFold(segs[i], root[i]))
             && Follows(t.root, path, segs[|root|..])
    ensures LookupSegments(t, uri) == Some(Match(End(t.root, path), ValuesAlong(path, Normalised(t, uri)[|Segments(t.root.uri)|..])))
  {
    hide EqualFold, Follows, Segments, Normalised;
    WalkFollows(t.root, path, Normalised(t, uri)[|Segments(t.root.uri)|..]);
  }

  /** Every URI that resolves does so that way; a case-sensitive node is reached by its exact name only. */
  lemma {:induction false} ResolvedAlong(t: Tree, uri: seq<string>) returns (path: seq<Node>)
    requires LookupSegments(t, uri).Some?
    ensures var segs, root := Normalised(t, uri), Segments(t.root.uri);
            && |root| <= |segs| && (forall i :: 0 <= i < |root| ==> EqualFold(segs[i], root[i]))
            && Follows(t.root, path, segs[|root|..]) && LookupSegments(t, uri).value.node == End(t.root, path)
            && forall i :: 0 <= i < |path| && !path[i].dynamic ==>
                 if path[i].caseSensitive then segs[|root| + i] == path[i].name else EqualFold(path[i].name, segs[|root| + i])
  {
    var segs := Normalised(t, uri)[|Segments(t.root.uri)|..];
    path := WalkTraced(t.root, segs);
    WalkFollows(t.root, path, segs);
    hide EqualFold, Segments, Normalised, Walk;
    forall i | 0 <= i < |path| && !path[i].dynamic ensures Written(path[i], segs[i]) {
      assert Leads(End(t.root, path[..i]), segs[i], path[i]);
    }
  }

  // ----- Concrete -----

  predicate Placeholder(seg: string) {
    |seg| > 2 && seg[0] == '{' && seg[|seg| - 1] == '}'
  }

  function TitleOf(seg: string): string
    requires Placeholder(seg)
  {
    seg[1..|seg| - 1]
  }

  predicate AllBytes(params: map<string, string>) {
    forall k :: k in params ==> Bytes(params[k])
  }

  function Fill(seg: string, params: map<string, string>): string
    requires AllBytes(params)
  {
    if Placeholder(seg) && TitleOf(seg) in params then PathEscape(params[TitleOf(seg)]) else seg
  }

  function FillEach(segs: seq<string>, params: map<string, string>): (r: seq<string>)
    requires AllBytes(params)
    ensures |r| == |segs|
  {
    seq(|segs|, i requires 0 <= i < |segs| => Fill(segs[i], params))
  }

  function Concrete(uri: string, params: map<string, string>): string
    requires AllBytes(params)
  {
    Join(FillEach(Split(uri, '/'), params), '/')
  }

  lemma {:induction false} FilledParts(t: seq<string>, params: map<string, string>)
    requires AllBytes(params) && |t| > 0 && forall p :: p in t ==> '/' !in p
    ensures Split(Join(FillEach(t, params), '/'), '/') == FillEach(t, params)
  {
    forall i | 0 <= i < |t| ensures '/' !in Fill(t[i], params) { assert t[i] in t; }
    SplitJoin(FillEach(t, params), '/');
  }

  method BuildConcrete(uri: string, params: map<string, string>) returns (r: string)
    requires AllBytes(params)
    ensures r == Concrete(uri, params)
    ensures var t, out := Split(uri, '/'), Split(r, '/');
            |out| == |t| && forall i :: 0 <= i < |t| ==>
              out[i] == if |t[i]| > 2 && t[i][0] == '{' && t[i][|t[i]| - 1] == '}' && t[i][1..|t[i]| - 1] in params
                        then PathEscape(params[t[i][1..|t[i]| - 1]]) else t[i]
  {
    hide Split, Join, PathEscape;
    SplitAvoids(uri, '/');
    FilledParts(Split(uri, '/'), params);
    var segs := Split(uri, '/');
    ghost var template := segs;
    for i := 0 to |segs|
      invariant |segs| == |template|
      invariant forall j :: 0 <= j < i ==> segs[j] == FillEach(template, params)[j]
      invariant forall j :: i <= j < |segs| ==> segs[j] == template[j]
    {
      var filled := FillOne(segs[i], params);
      segs := segs[i := filled];
    }
    assert segs == FillEach(template, params);
    r := Join(segs, '/');
  }

  /** The body of the loop of `Concrete`. */
  method FillOne(s: string, params: map<string, string>) returns (r: string)
    requires AllBytes(params)
    ensures r == Fill(s, params)
  {
    r := s;
    if |s| > 2 && s[0] == '{' && s[|s| - 1] == '}' {
      if s[1..|s| - 1] in params {
        r := PathEscape(params[s[1..|s| - 1]]);
      }
    }
  }

  // ----- a node's own URI leads back to it -----

  /** How a node appears in the URIs below it. */
  function PartOf(c: Node): string {
    if c.dynamic then "{" + c.title + "}" else c.name
  }

  /** A static part that is written and read as it is. */
  predicate Literal(p: string) {
    Plain(p) && Decoded(p) == p && !Placeholder(p)
  }

  predicate WellNamed(c: Node) {
    if c.dynamic then c.title != "" && '/' !in c.title else Literal(c.name)
  }

  function Templates(path: seq<Node>): (r: seq<string>)
    ensures |r| == |path|
  {
    seq(|path|, i requires 0 <= i < |path| => PartOf(path[i]))
  }

  /** The segments the values give along a path. */
  function Chosen(path: seq<Node>, vals: map<string, string>): (r: seq<string>)
    requires forall c :: c in path && c.dynamic ==> c.title in vals
    ensures |r| == |path|
  {
    seq(|path|, i requires 0 <= i < |path| => if path[i].dynamic then vals[path[i].title] else path[i].name)
  }

  function ParamsAlong(path: seq<Node>, vals: map<string, string>): map<string, string>
    requires forall c :: c in path && c.dynamic ==> c.title in vals
  {
    map c | c in path && c.dynamic :: c.title := vals[c.title]
  }

  /** `c` is the child of `n` that its own segment selects: no other child competes for it. */
  predicate Selected(n: Node, c: Node, vals: map<string, string>) {
    && c in n.children
    && if c.dynamic then
         && c.title in vals && vals[c.title] != "" && Bytes(vals[c.title])
         && (forall d :: d in n.children && d.dynamic ==> d == c)
         && (forall d :: d in n.children ==> !Written(d, vals[c.title]))
       else forall d :: d in n.children && Written(d, c.name) ==> d == c
  }

  predicate SelectedPath(root: Node, path: seq<Node>, vals: map<string, string>) {
    forall i :: 0 <= i < |path| ==> Selected(End(root, path[..i]), path[i], vals)
  }

  lemma {:induction false} PathValues(root: Node, path: seq<Node>, vals: map<string, string>)
    requires SelectedPath(root, path, vals)
    ensures forall c :: c in path && c.dynamic ==> c.title in vals && vals[c.title] != "" && Bytes(vals[c.title])
  {
    hide Written, Bytes;
    forall c | c in path && c.dynamic ensures c.title in vals && vals[c.title] != "" && Bytes(vals[c.title]) {
      var i :| 0 <= i < |path| && path[i] == c;
      assert Selected(End(root, path[..i]), path[i], vals);
    }
  }

  lemma {:induction false} SameFold(s: string)
    ensures EqualFold(s, s)
  {
  }

  lemma {:induction false} SelectedLeads(n: Node, c: Node, vals: map<string, string>)
    requires Selected(n, c, vals)
    ensures Leads(n, if c.dynamic then vals[c.title] else c.name, c)
  {
    hide EqualFold, Bytes;
    var seg := if c.dynamic then vals[c.title] else c.name;
    var k :| 0 <= k < |n.children| && n.children[k] == c;
    var i := FirstOf(n.children, c, k);
    if !c.dynamic { SameFold(c.name); }
    assert forall j :: 0 <= j < |n.children| ==> n.children[j] in n.children;
    assert LeadsAt(n.children, seg, i);
  }

  lemma {:induction false} FirstOf(cs: seq<Node>, c: Node, k: nat) returns (i: nat)
    requires k < |cs| && cs[k] == c
    ensures i < |cs| && cs[i] == c && forall j :: 0 <= j < i ==> cs[j] != c
  {
    i := k;
    if j :| 0 <= j < k && cs[j] == c { i := FirstOf(cs, c, j); }
  }

  /** Walking the values of a path ends at its last node, with those values. */
  lemma {:induction false} WalkPath(root: Node, path: seq<Node>, vals: map<string, string>)
    requires SelectedPath(root, path, vals)
    ensures (forall c :: c in path && c.dynamic ==> c.title in vals)
    ensures Walk(Match(root, map[]), Chosen(path, vals)) == Some(Match(End(root, path), ParamsAlong(path, vals)))
  {
    PathValues(root, path, vals);
    hide Selected, Walk, Leads;
    var segs := Chosen(path, vals);
    forall i | 0 <= i < |path| ensures Leads(End(root, path[..i]), segs[i], path[i]) {
      SelectedLeads(End(root, path[..i]), path[i], vals);
    }
    WalkFollows(root, path, segs);
    ValuesChosen(path, vals);
  }

  lemma {:induction false} ValuesChosen(path: seq<Node>, vals: map<string, string>)
    requires forall c :: c in path && c.dynamic ==> c.title in vals
    ensures ValuesAlong(path, Chosen(path, vals)) == ParamsAlong(path, vals)
  {
    if path != [] {
      var front, last := path[..|path| - 1], path[|path| - 1];
      assert path == front + [last];
      assert Chosen(path, vals)[..|front|] == Chosen(front, vals);
      ValuesChosen(front, vals);
      ParamsMore(front, last, vals);
    }
  }

  lemma {:induction false} ParamsMore(front: seq<Node>, last: Node, vals: map<string, string>)
    requires forall c :: c in front + [last] && c.dynamic ==> c.title in vals
    requires forall c :: c in front && c.dynamic ==> c.title in vals
    ensures ParamsAlong(front + [last], vals) ==
            if last.dynamic then ParamsAlong(front, vals)[last.title := vals[last.title]] else ParamsAlong(front, vals)
  {
    assert forall c :: c in front + [last] <==> c in front || c == last;
  }

  // ----- the text of a concrete URI -----

  lemma {:induction false} TemplateFilled(c: Node, vals: map<string, string>)
    requires WellNamed(c) && AllBytes(vals) && (c.dynamic ==> c.title in vals && vals[c.title] != "")
    ensures '/' !in PartOf(c) && Plain(Fill(PartOf(c), vals))
    ensures Decoded(Fill(PartOf(c), vals)) == if c.dynamic then vals[c.title] else c.name
  {
    hide PathUnescape, PathEscape;
    var p := PartOf(c);
    if c.dynamic {
      assert Placeholder(p) && TitleOf(p) == c.title;
      EscapeRoundTrip(vals[c.title]);
    }
  }

  predicate AllLiteral(parts: seq<string>) {
    |parts| > 0 && forall p :: p in parts ==> Literal(p)
  }

  predicate AllWellNamed(path: seq<Node>, vals: map<string, string>) {
    forall c :: c in path ==> WellNamed(c) && (c.dynamic ==> c.title in vals && vals[c.title] != "")
  }

  /** The segments of a concrete URI are the root's and then the values along the path. */
  lemma {:induction false} ConcreteSegments(rootParts: seq<string>, path: seq<Node>, vals: map<string, string>)
    requires AllLiteral(rootParts) && AllBytes(vals) && AllWellNamed(path, vals)
    ensures Segments(Concrete(Join(rootParts + Templates(path), '/'), vals)) == rootParts + Chosen(path, vals)
  {
    var parts := rootParts + Templates(path);
    hide WellNamed, Literal, PartOf, Fill, AllBytes, Decoded;
    forall i | 0 <= i < |parts| ensures PartGood(parts[i], vals, (rootParts + Chosen(path, vals))[i]) {
      if i < |rootParts| {
        assert rootParts[i] in rootParts;
        RootPart(rootParts[i], vals);
      } else {
        assert path[i - |rootParts|] in path;
        PathPart(path[i - |rootParts|], vals);
      }
    }
    SplitJoin(parts, '/');
    var filled := FillEach(parts, vals);
    SegmentsOfJoin(filled);
    assert DecodeEach(filled) == rootParts + Chosen(path, vals);
  }

  /** A template part that is found again after splitting, and reads as `seg` once filled. */
  predicate PartGood(p: string, vals: map<string, string>, seg: string)
    requires AllBytes(vals)
  {
    '/' !in p && Plain(Fill(p, vals)) && Decoded(Fill(p, vals)) == seg
  }

  lemma {:induction false} RootPart(p: string, vals: map<string, string>)
    requires Literal(p) && AllBytes(vals)
    ensures PartGood(p, vals, p)
  {
  }

  lemma {:induction false} PathPart(c: Node, vals: map<string, string>)
    requires WellNamed(c) && AllBytes(vals) && (c.dynamic ==> c.title in vals && vals[c.title] != "")
    ensures PartGood(PartOf(c), vals, if c.dynamic then vals[c.title] else c.name)
  {
    TemplateFilled(c, vals);
  }

  /**
   A node's concrete URI resolves to that node with the values it was built
   from, whatever they are, as long as no static sibling has such a name.
   */
  lemma {:induction false} ConcreteResolves(t: Tree, rootParts: seq<string>, path: seq<Node>, vals: map<string, string>)
    requires AllLiteral(rootParts) && |rootParts| >= 2 && t.root.uri == Join(rootParts, '/')
    requires t.scope == LEGACY ==> !EqualFold(rootParts[1], "Device")
    requires SelectedPath(t.root, path, vals) && AllBytes(vals) && forall c :: c in path ==> WellNamed(c)
    requires End(t.root, path).uri == Join(rootParts + Templates(path), '/')
    ensures (forall c :: c in path && c.dynamic ==> c.title in vals)
    ensures Lookup(t, Concrete(End(t.root, path).uri, vals)) == Some(Match(End(t.root, path), ParamsAlong(path, vals)))
  {
    PathValues(t.root, path, vals);
    ConcreteSegments(rootParts, path, vals);
    RootSegments(rootParts);
    WalkPath(t.root, path, vals);
    hide Segments, Concrete, Walk, EqualFold, WellNamed, AllLiteral, SelectedPath;
    var segs := rootParts + Chosen(path, vals);
    forall i | 0 <= i < |rootParts| ensures EqualFold(segs[i], rootParts[i]) { SameFold(rootParts[i]); }
    assert segs[|rootParts|..] == Chosen(path, vals);
  }

  lemma {:induction false} RootSegments(rootParts: seq<string>)
    requires AllLiteral(rootParts)
    ensures Segments(Join(rootParts, '/')) == rootParts
  {
    SegmentsOfJoin(rootParts);
    hide Segments, Join, Plain, Decoded;
    forall i | 0 <= i < |rootParts| ensures Decoded(rootParts[i]) == rootParts[i] {
      assert rootParts[i] in rootParts;
    }
    assert DecodeEach(rootParts) == rootParts;
  }
}
