/** The URI functions the generator emits: `uriExpr` of internal/schemagen/emit.go. */
module UriExpr {
  import opened Options
  import opened Locators
  import opened UriText
  import opened SchemaTree

  /** One operand of the emitted concatenation: a string literal, or `escape` of a parameter. */
  datatype Part = Quoted(text: string) | Escaped(param: string)

  predicate KnownParams(parts: seq<Part>, env: map<string, string>) {
    forall p :: p in parts && p.Escaped? ==> p.param in env
  }

  /** What the emitted expression evaluates to when the parameters have these values. */
  function Eval(parts: seq<Part>, env: map<string, string>): string
    requires AllBytes(env) && KnownParams(parts, env)
  {
    if parts == [] then ""
    else
      var front, last := Eval(parts[..|parts| - 1], env), parts[|parts| - 1];
      front + if last.Quoted? then last.text else PathEscape(env[last.param])
  }

  /** The titles of the placeholders, in order. */
  function Titles(segs: seq<string>): seq<string> {
    if segs == [] then []
    else
      var front, last := Titles(segs[..|segs| - 1]), segs[|segs| - 1];
      if Placeholder(last) then front + [TitleOf(last)] else front
  }

  predicate Distinct(s: seq<string>) {
    forall i, j :: 0 <= i < j < |s| ==> s[i] != s[j]
  }

  /** The values by title, when the parameters stand for the titles in order. */
  function ByTitle(titles: seq<string>, params: seq<string>, env: map<string, string>): map<string, string>
    requires |titles| == |params| && forall p :: p in params ==> p in env
  {
    if titles == [] then map[]
    else
      var n := |titles| - 1;
      assert forall p :: p in params[..n] ==> p in params;
      ByTitle(titles[..n], params[..n], env)[titles[n] := env[params[n]]]
  }

  lemma {:induction false} ByTitleAt(titles: seq<string>, params: seq<string>, env: map<string, string>, i: nat)
    requires |titles| == |params| && (forall p :: p in params ==> p in env) && Distinct(titles) && i < |titles|
    ensures titles[i] in ByTitle(titles, params, env) && ByTitle(titles, params, env)[titles[i]] == env[params[i]]
  {
    var n := |titles| - 1;
    if i < n {
      assert forall p :: p in params[..n] ==> p in params;
      ByTitleAt(titles[..n], params[..n], env, i);
    }
  }

  lemma {:induction false} ByTitleBytes(titles: seq<string>, params: seq<string>, env: map<string, string>)
    requires |titles| == |params| && (forall p :: p in params ==> p in env) && AllBytes(env)
    ensures AllBytes(ByTitle(titles, params, env))
  {
    hide Bytes;
    if titles != [] {
      var n := |titles| - 1;
      assert forall p :: p in params[..n] ==> p in params;
      ByTitleBytes(titles[..n], params[..n], env);
    }
  }

  lemma {:induction false} TitlesPrefix(segs: seq<string>, i: nat)
    requires i <= |segs|
    ensures Titles(segs[..i]) <= Titles(segs)
    decreases |segs| - i
  {
    hide Placeholder, TitleOf;
    if i < |segs| {
      assert segs[..i + 1][..i] == segs[..i];
      TitlesPrefix(segs, i + 1);
    } else {
      assert segs[..i] == segs;
    }
  }

  lemma {:induction false} JoinMore(parts: seq<string>, p: string)
    requires |parts| > 0
    ensures Join(parts + [p], '/') == Join(parts, '/') + "/" + p
  {
    if |parts| == 1 {
      assert (parts + [p])[1..] == [p];
    } else {
      assert (parts + [p])[1..] == parts[1..] + [p];
      JoinMore(parts[1..], p);
    }
  }

  /** Joined as far as it goes; nothing for no parts. */
  function JoinedUpTo(parts: seq<string>): string {
    if parts == [] then "" else Join(parts, '/')
  }

  lemma {:induction false} JoinedMore(parts: seq<string>, p: string)
    ensures JoinedUpTo(parts + [p]) == JoinedUpTo(parts) + (if parts == [] then "" else "/") + p
  {
    if parts != [] {
      JoinMore(parts, p);
    } else {
      assert parts + [p] == [p];
    }
  }

  lemma {:induction false} EvalMore(parts: seq<Part>, p: Part, env: map<string, string>)
    requires AllBytes(env) && KnownParams(parts, env) && (p.Escaped? ==> p.param in env)
    ensures KnownParams(parts + [p], env)
    ensures Eval(parts + [p], env) == Eval(parts, env) + if p.Quoted? then p.text else PathEscape(env[p.param])
  {
    hide Bytes, PathEscape;
    assert (parts + [p])[..|parts|] == parts;
  }

  /** The loop of `uriExpr` after `i` segments: the parts and the pending literal spell the filled template so far. */
  ghost predicate Rendered(segs: seq<string>, i: nat, parts: seq<Part>, lit: string, pi: nat, params: seq<string>,
                           env: map<string, string>, vals: map<string, string>)
    requires AllBytes(env) && AllBytes(vals) && i <= |segs|
  {
    && KnownParams(parts, env)
    && pi == |Titles(segs[..i])|
    && Eval(parts, env) + lit == JoinedUpTo(FillEach(segs, vals)[..i])
  }

  lemma {:induction false} RenderText(segs: seq<string>, i: nat, parts: seq<Part>, lit: string, pi: nat, params: seq<string>,
                                      env: map<string, string>, vals: map<string, string>)
    requires AllBytes(env) && AllBytes(vals) && i < |segs| && Rendered(segs, i, parts, lit, pi, params, env, vals)
    requires !Placeholder(segs[i])
    ensures Rendered(segs, i + 1, parts, lit + (if i > 0 then "/" else "") + segs[i], pi, params, env, vals)
  {
    hide Bytes, Eval, Join;
    var filled := FillEach(segs, vals);
    assert filled[..i + 1] == filled[..i] + [segs[i]];
    JoinedMore(filled[..i], segs[i]);
    assert segs[..i + 1][..i] == segs[..i];
    var sep := if i > 0 then "/" else "";
    assert Eval(parts, env) + (lit + sep + segs[i]) == Eval(parts, env) + lit + sep + segs[i];
  }

  lemma {:induction false} RenderHole(segs: seq<string>, i: nat, parts: seq<Part>, lit: string, pi: nat, params: seq<string>,
                                      env: map<string, string>, vals: map<string, string>)
    requires AllBytes(env) && AllBytes(vals) && i < |segs| && Rendered(segs, i, parts, lit, pi, params, env, vals)
    requires Placeholder(segs[i]) && pi < |params| && params[pi] in env
    requires TitleOf(segs[i]) in vals && vals[TitleOf(segs[i])] == env[params[pi]]
    ensures Rendered(segs, i + 1, parts + [Quoted(lit + (if i > 0 then "/" else "")), Escaped(params[pi])], "", pi + 1, params, env, vals)
  {
    var sep, text := if i > 0 then "/" else "", PathEscape(env[params[pi]]);
    var filled := FillEach(segs, vals);
    assert filled[..i + 1] == filled[..i] + [text];
    hide Bytes, Join, PathEscape, Eval;
    JoinedMore(filled[..i], text);
    assert segs[..i + 1][..i] == segs[..i];
    EvalHole(parts, lit, sep, params[pi], env);
    hide FillEach, JoinedUpTo;
  }

  lemma {:induction false} EvalHole(parts: seq<Part>, lit: string, sep: string, param: string, env: map<string, string>)
    requires AllBytes(env) && KnownParams(parts, env) && param in env
    ensures var all := parts + [Quoted(lit + sep), Escaped(param)];
            KnownParams(all, env) && Eval(all, env) + "" == Eval(parts, env) + lit + sep + PathEscape(env[param])
  {
    hide Bytes, PathEscape, Eval;
    var head := parts + [Quoted(lit + sep)];
    EvalMore(parts, Quoted(lit + sep), env);
    EvalMore(head, Escaped(param), env);
    assert parts + [Quoted(lit + sep), Escaped(param)] == head + [Escaped(param)];
  }

  /**
   The expression `uriExpr` emits for a template evaluates to the template's
   `Concrete` URI for the parameters' values.
   */
  method Emit(uri: string, params: seq<string>, ghost env: map<string, string>) returns (parts: seq<Part>)
    requires |params| == |Titles(Split(uri, '/'))| && Distinct(Titles(Split(uri, '/')))
    requires AllBytes(env) && forall p :: p in params ==> p in env
    ensures KnownParams(parts, env)
    ensures var vals := ByTitle(Titles(Split(uri, '/')), params, env);
            AllBytes(vals) && Eval(parts, env) == Concrete(uri, vals)
  {
    var segs := Split(uri, '/');
    ghost var titles := Titles(segs);
    ghost var vals := ByTitle(titles, params, env);
    ByTitleBytes(titles, params, env);
    hide Split, Titles, ByTitle, AllBytes, FillEach, Eval;
    RenderNone(segs, params, env, vals);
    parts := [];
    var lit, pi := "", 0;
    for i := 0 to |segs|
      invariant 0 <= pi <= |params| && Rendered(segs, i, parts, lit, pi, params, env, vals)
    {
      hide Rendered;
      TitleAt(segs, i, parts, lit, pi, params, env, vals);
      if Placeholder(segs[i]) {
        RenderHole(segs, i, parts, lit, pi, params, env, vals);
        parts := parts + [Quoted(lit + (if i > 0 then "/" else "")), Escaped(params[pi])];
        pi := pi + 1;
        lit := "";
      } else {
        RenderText(segs, i, parts, lit, pi, params, env, vals);
        lit := lit + (if i > 0 then "/" else "") + segs[i];
      }
    }
    RenderAll(segs, parts, lit, pi, params, env, vals);
    if |lit| > 0 {
      EvalMore(parts, Quoted(lit), env);
      parts := parts + [Quoted(lit)];
    }
  }

  lemma {:induction false} RenderNone(segs: seq<string>, params: seq<string>, env: map<string, string>, vals: map<string, string>)
    requires AllBytes(env) && AllBytes(vals)
    ensures Rendered(segs, 0, [], "", 0, params, env, vals)
  {
    assert segs[..0] == [];
  }

  lemma {:induction false} RenderAll(segs: seq<string>, parts: seq<Part>, lit: string, pi: nat, params: seq<string>,
                                     env: map<string, string>, vals: map<string, string>)
    requires AllBytes(env) && AllBytes(vals) && |segs| > 0 && Rendered(segs, |segs|, parts, lit, pi, params, env, vals)
    ensures KnownParams(parts, env) && Eval(parts, env) + lit == Join(FillEach(segs, vals), '/')
    ensures lit == "" ==> Eval(parts, env) == Join(FillEach(segs, vals), '/')
  {
    hide Eval, Join;
    assert FillEach(segs, vals)[..|segs|] == FillEach(segs, vals);
    assert Eval(parts, env) + "" == Eval(parts, env);
  }

  /** The parameter a placeholder gets is the one that stands for its title. */
  lemma {:induction false} TitleAt(segs: seq<string>, i: nat, parts: seq<Part>, lit: string, pi: nat, params: seq<string>,
                                   env: map<string, string>, vals: map<string, string>)
    requires AllBytes(env) && AllBytes(vals) && i < |segs| && Rendered(segs, i, parts, lit, pi, params, env, vals)
    requires |params| == |Titles(segs)| && Distinct(Titles(segs)) && (forall p :: p in params ==> p in env)
    requires vals == ByTitle(Titles(segs), params, env)
    ensures Placeholder(segs[i]) ==>
              && pi < |params| && params[pi] in env
              && TitleOf(segs[i]) in vals && vals[TitleOf(segs[i])] == env[params[pi]]
  {
    if Placeholder(segs[i]) {
      assert segs[..i + 1][..i] == segs[..i];
      TitlesPrefix(segs, i + 1);
      assert Titles(segs)[pi] == TitleOf(segs[i]);
      ByTitleAt(Titles(segs), params, env, pi);
    }
  }

  // ----- the emitted functions lead back to their node -----

  /** The titles of the dynamic nodes of a path, in order. */
  function PathTitles(path: seq<Node>): seq<string> {
    if path == [] then []
    else
      var front, last := PathTitles(path[..|path| - 1]), path[|path| - 1];
      if last.dynamic then front + [last.title] else front
  }

  lemma {:induction false} TitlesNone(parts: seq<string>)
    requires forall p :: p in parts ==> !Placeholder(p)
    ensures Titles(parts) == []
  {
    hide Placeholder;
    if parts != [] {
      TitlesNone(parts[..|parts| - 1]);
      assert parts[|parts| - 1] in parts;
    }
  }

  lemma {:induction false} TitlesOfPath(rootParts: seq<string>, path: seq<Node>)
    requires (forall p :: p in rootParts ==> !Placeholder(p)) && forall c :: c in path ==> WellNamed(c)
    ensures Titles(rootParts + Templates(path)) == PathTitles(path)
  {
    hide WellNamed;
    if path == [] {
      assert rootParts + Templates(path) == rootParts;
      TitlesNone(rootParts);
    } else {
      var front, last := path[..|path| - 1], path[|path| - 1];
      assert last in path && forall c :: c in front ==> c in path;
      TitlesOfPath(rootParts, front);
      var all := rootParts + Templates(path);
      assert all[..|all| - 1] == rootParts + Templates(front);
      PartTitle(last);
    }
  }

  lemma {:induction false} PartTitle(c: Node)
    requires WellNamed(c)
    ensures Placeholder(PartOf(c)) == c.dynamic && (c.dynamic ==> TitleOf(PartOf(c)) == c.title)
  {
  }

  /**
   The function emitted for a node, called with any values its siblings do not
   claim, gives a URI that resolves to that node with those values.
   */
  lemma {:induction false} EmittedResolves(
      t: Tree, rootParts: seq<string>, path: seq<Node>, params: seq<string>, env: map<string, string>, parts: seq<Part>)
    requires AllLiteral(rootParts) && |rootParts| >= 2 && t.root.uri == Join(rootParts, '/')
    requires t.scope == LEGACY ==> !EqualFold(rootParts[1], "Device")
    requires End(t.root, path).uri == Join(rootParts + Templates(path), '/') && forall c :: c in path ==> WellNamed(c)
    requires AllBytes(env) && (forall p :: p in params ==> p in env) && KnownParams(parts, env)
    requires |params| == |PathTitles(path)| && Distinct(PathTitles(path))
    requires SelectedPath(t.root, path, ByTitle(PathTitles(path), params, env))
    requires var uri := End(t.root, path).uri;
             |params| == |Titles(Split(uri, '/'))| && AllBytes(ByTitle(Titles(Split(uri, '/')), params, env))
             && Eval(parts, env) == Concrete(uri, ByTitle(Titles(Split(uri, '/')), params, env))
    ensures var vals := ByTitle(PathTitles(path), params, env);
            && (forall c :: c in path && c.dynamic ==> c.title in vals)
            && Lookup(t, Eval(parts, env)) == Some(Match(End(t.root, path), ParamsAlong(path, vals)))
  {
    PartsSplit(rootParts, path);
    TitlesOfPath(rootParts, path);
    hide Eval, Concrete, Lookup, Split, Join, SelectedPath, ByTitle, Titles, PathTitles, Literal, WellNamed, EqualFold;
    ConcreteResolves(t, rootParts, path, ByTitle(PathTitles(path), params, env));
  }

  lemma {:induction false} PartsSplit(rootParts: seq<string>, path: seq<Node>)
    requires AllLiteral(rootParts) && forall c :: c in path ==> WellNamed(c)
    ensures Split(Join(rootParts + Templates(path), '/'), '/') == rootParts + Templates(path)
    ensures forall p :: p in rootParts ==> !Placeholder(p)
  {
    var parts := rootParts + Templates(path);
    forall p | p in parts ensures '/' !in p {
      var i :| 0 <= i < |parts| && parts[i] == p;
      if i < |rootParts| { assert p in rootParts; } else { assert path[i - |rootParts|] in path; }
    }
    hide WellNamed, PartOf;
    SplitJoin(parts, '/');
  }

  /** Emitting the function of a node of a tree: what it evaluates to resolves to that node. */
  method EmitFor(t: Tree, ghost rootParts: seq<string>, ghost path: seq<Node>, node: Node, params: seq<string>, ghost env: map<string, string>)
    returns (parts: seq<Part>)
    requires AllLiteral(rootParts) && |rootParts| >= 2 && t.root.uri == Join(rootParts, '/')
    requires t.scope == LEGACY ==> !EqualFold(rootParts[1], "Device")
    requires node == End(t.root, path) && node.uri == Join(rootParts + Templates(path), '/') && forall c :: c in path ==> WellNamed(c)
    requires AllBytes(env) && forall p :: p in params ==> p in env
    requires |params| == |PathTitles(path)| && Distinct(PathTitles(path))
    requires SelectedPath(t.root, path, ByTitle(PathTitles(path), params, env))
    ensures KnownParams(parts, env)
    ensures var vals := ByTitle(PathTitles(path), params, env);
            && (forall c :: c in path && c.dynamic ==> c.title in vals)
            && Lookup(t, Eval(parts, env)) == Some(Match(node, ParamsAlong(path, vals)))
  {
    PartsSplit(rootParts, path);
    TitlesOfPath(rootParts, path);
    hide Eval, Concrete, Lookup, Split, Join, SelectedPath, ByTitle, Titles, PathTitles, Literal, WellNamed, EqualFold, AllBytes;
    parts := Emit(node.uri, params, env);
    EmittedResolves(t, rootParts, path, params, env, parts);
  }
}
