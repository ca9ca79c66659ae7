/** `Graph.Reaches` of internal/layout/layout.go: the depth-first closure. */
module TransitiveImports {
  import opened Ordering
  import opened Reachability

  ghost predicate Scanned(g: Graph, v: string, seen: set<string>) {
    forall w :: Edge(g, v, w) ==> w in seen
  }

  lemma {:induction false} ImportsEdge(g: Graph, from: string, v: string, w: string)
    requires v == from || Imports(g, from, v)
    requires Edge(g, v, w)
    ensures Imports(g, from, w)
  {
    assert Path(g, w, [], w);
    assert Path(g, v, [w], w);
    if v == from {
      assert [w] != [] && Path(g, from, [w], w);
    } else {
      var p :| p != [] && Path(g, from, p, v);
      PathConcat(g, from, p, v, [w], w);
      assert p + [w] != [];
    }
  }

  class Walker {
    const g: Graph
    var seen: set<string>

    constructor (g: Graph)
      ensures this.g == g && seen == {}
    {
      this.g := g;
      seen := {};
    }

    /** Marks everything below `v`; what it adds is fully scanned when it returns. */
    method Walk(v: string, ghost from: string)
      requires v == from || Imports(g, from, v)
      requires seen <= Vertices(g)
      requires forall x :: x in seen ==> Imports(g, from, x)
      modifies this
      ensures old(seen) <= seen <= Vertices(g)
      ensures Scanned(g, v, seen)
      ensures forall x :: x in seen - old(seen) ==> Scanned(g, x, seen)
      ensures forall x :: x in seen ==> Imports(g, from, x)
      decreases Vertices(g) - seen
    {
      var edges := Succ(g, v);
      for k := 0 to |edges|
        invariant old(seen) <= seen <= Vertices(g)
        invariant forall w :: w in edges[..k] ==> w in seen
        invariant forall x :: x in seen - old(seen) ==> Scanned(g, x, seen)
        invariant forall x :: x in seen ==> Imports(g, from, x)
      {
        var next := edges[k];
        assert edges[..k + 1] == edges[..k] + [next];
        if next !in seen {
          SuccInVertices(g, v, k);
          ImportsEdge(g, from, v, next);
          ghost var before := seen;
          seen := seen + {next};
          Walk(next, from);
          forall x | x in seen - old(seen)
            ensures Scanned(g, x, seen)
          {
            if x in before { assert Scanned(g, x, before); }
          }
        }
      }
      assert edges[..|edges|] == edges;
    }
  }

  lemma {:induction false} ClosureComplete(g: Graph, from: string, seen: set<string>, v: string, p: seq<string>, w: string)
    requires v == from || v in seen
    requires Scanned(g, from, seen) && forall x :: x in seen ==> Scanned(g, x, seen)
    requires Path(g, v, p, w) && p != []
    ensures w in seen
    decreases p
  {
    assert Edge(g, v, p[0]);
    if |p| > 1 {
      ClosureComplete(g, from, seen, p[0], p[1..], w);
    }
  }

  /** Every package transitively imported by `from`, in order, and no other. */
  method Reaches(g: Graph, from: string) returns (out: seq<string>)
    ensures Increasing(out)
    ensures forall x :: x in out <==> Imports(g, from, x)
  {
    var w := new Walker(g);
    w.Walk(from, from);
    forall x | Imports(g, from, x)
      ensures x in w.seen
    {
      var p :| p != [] && Path(g, from, p, x);
      ClosureComplete(g, from, w.seen, from, p, x);
    }
    out := SortedSet(w.seen);
    assert forall x :: x in out <==> x in Elements(out);
  }
}
