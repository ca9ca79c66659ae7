/**
 The package import graph of `internal/layout`: adjacency lists keyed by
 name, where a name without an entry has no edges, and paths through them.
 */
module Reachability {

  type Graph = map<string, seq<string>>

  function Succ(g: Graph, v: string): seq<string> {
    if v in g then g[v] else []
  }

  ghost predicate Edge(g: Graph, a: string, b: string) {
    b in Succ(g, a)
  }

  /** Every name the graph mentions, as a key or as the end of an edge. */
  ghost function Vertices(g: Graph): set<string> {
    g.Keys + set v, w | v in g && w in g[v] :: w
  }

  lemma {:induction false} SuccInVertices(g: Graph, v: string, k: nat)
    requires k < |Succ(g, v)|
    ensures Succ(g, v)[k] in Vertices(g)
  {
    assert v in g && Succ(g, v)[k] in g[v];
  }

  /** `p` lists the vertices visited after `a`, the last one being `b`. */
  ghost predicate Path(g: Graph, a: string, p: seq<string>, b: string)
    decreases p
  {
    if p == [] then a == b else Edge(g, a, p[0]) && Path(g, p[0], p[1..], b)
  }

  ghost predicate Reach(g: Graph, a: string, b: string) {
    exists p :: Path(g, a, p, b)
  }

  /** Reachable by at least one edge: what "transitively imports" means. */
  ghost predicate Imports(g: Graph, a: string, b: string) {
    exists p :: p != [] && Path(g, a, p, b)
  }

  ghost predicate Mutual(g: Graph, a: string, b: string) {
    Reach(g, a, b) && Reach(g, b, a)
  }

  lemma {:induction false} ReachSelf(g: Graph, a: string)
    ensures Reach(g, a, a)
  {
    assert Path(g, a, [], a);
  }

  lemma {:induction false} ReachEdge(g: Graph, a: string, b: string)
    requires Edge(g, a, b)
    ensures Reach(g, a, b)
  {
    assert Path(g, b, [], b);
    assert Path(g, a, [b], b);
  }

  lemma {:induction false} PathConcat(g: Graph, a: string, p: seq<string>, b: string, q: seq<string>, c: string)
    requires Path(g, a, p, b) && Path(g, b, q, c)
    ensures Path(g, a, p + q, c)
    decreases p
  {
    if p == [] {
      assert p + q == q;
    } else {
      PathConcat(g, p[0], p[1..], b, q, c);
      assert (p + q)[1..] == p[1..] + q;
    }
  }

  lemma {:induction false} ReachTrans(g: Graph, a: string, b: string, c: string)
    requires Reach(g, a, b) && Reach(g, b, c)
    ensures Reach(g, a, c)
  {
    var p :| Path(g, a, p, b);
    var q :| Path(g, b, q, c);
    PathConcat(g, a, p, b, q, c);
  }

  ghost predicate Closed(g: Graph, s: set<string>) {
    forall v, w :: v in s && Edge(g, v, w) ==> w in s
  }

  lemma {:induction false} ClosedPath(g: Graph, s: set<string>, a: string, p: seq<string>, b: string)
    requires Closed(g, s) && a in s && Path(g, a, p, b)
    ensures b in s
    decreases p
  {
    if p != [] {
      ClosedPath(g, s, p[0], p[1..], b);
    }
  }

  lemma {:induction false} ClosedReach(g: Graph, s: set<string>, a: string, b: string)
    requires Closed(g, s) && a in s && Reach(g, a, b)
    ensures b in s
  {
    var p :| Path(g, a, p, b);
    ClosedPath(g, s, a, p, b);
  }

  lemma {:induction false} MutualTrans(g: Graph, a: string, b: string, c: string)
    requires Mutual(g, a, b) && Mutual(g, b, c)
    ensures Mutual(g, a, c)
  {
    ReachTrans(g, a, b, c);
    ReachTrans(g, c, b, a);
  }
}
