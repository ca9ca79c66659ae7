/**
 `Cycles` of internal/layout/layout.go: Tarjan's strongly connected components
 with the source's own bookkeeping (`index`, `low`, `on`, an explicit stack).

 The search state is a class. Its invariants are predicates over a snapshot
 of the fields, and each step of the algorithm has a lemma about snapshots.
 */
module Cycles {
  import opened Ordering
  import opened Reachability

  datatype Search = Search(
    index: map<string, nat>,
    low: map<string, nat>,
    on: map<string, bool>,
    stack: seq<string>,
    out: seq<seq<string>>,
    next: nat)

  predicate On(on: map<string, bool>, v: string) {
    v in on && on[v]
  }

  /** The vertices whose component has been completed. */
  ghost function Done(s: Search): set<string> {
    s.index.Keys - Elements(s.stack)
  }

  ghost predicate Shape(g: Graph, s: Search) {
    && s.low.Keys == s.index.Keys
    && s.index.Keys <= Vertices(g)
    && (forall v :: v in s.index ==> s.index[v] < s.next)
    && (forall u, v :: u in s.index && v in s.index && s.index[u] == s.index[v] ==> u == v)
    && (forall v :: v in s.stack ==> v in s.index)
    && (forall i, j :: 0 <= i < j < |s.stack| ==> s.stack[i] in s.index && s.stack[j] in s.index && s.index[s.stack[i]] < s.index[s.stack[j]])
    && (forall v :: On(s.on, v) <==> v in s.stack)
  }

  /** `gray` holds the vertices whose call to `strong` has not returned. */
  ghost predicate Coloured(g: Graph, gray: set<string>, s: Search) {
    && gray <= Elements(s.stack)
    && (forall v, w :: v in s.index && v !in gray && Edge(g, v, w) ==> w in s.index)
    && Closed(g, Done(s))
  }

  ghost predicate Below(s: Search, x: string, y: string) {
    x in s.index && y in s.index && s.index[x] <= s.index[y]
  }

  /** `y` reaches an unfinished vertex numbered no higher than itself. */
  ghost predicate Anchored(g: Graph, gray: set<string>, s: Search, y: string) {
    exists x :: x in gray && Below(s, x, y) && Reach(g, y, x)
  }

  ghost predicate Linked(g: Graph, gray: set<string>, s: Search) {
    && (forall x, y {:trigger Below(s, x, y)} :: x in gray && y in s.stack && Below(s, x, y) ==> Reach(g, x, y))
    && (forall y {:trigger Anchored(g, gray, s, y)} :: y in s.stack ==> Anchored(g, gray, s, y))
  }

  /** `c` lists, in order, a whole strongly connected component of at least two. */
  ghost predicate IsComponent(g: Graph, c: seq<string>) {
    && |c| > 1
    && Increasing(c)
    && (forall x, y :: x in c ==> (y in c <==> Mutual(g, x, y)))
  }

  /** `out` lists the components of size above one among the vertices `done`. */
  ghost predicate Lists(g: Graph, done: set<string>, out: seq<seq<string>>) {
    && (forall c :: c in out ==> IsComponent(g, c) && Elements(c) <= done)
    && (forall x, y :: x in done && x != y && Mutual(g, x, y) ==> exists c :: c in out && x in c)
    && (forall i, j, x :: 0 <= i < j < |out| && x in out[i] ==> x !in out[j])
  }

  ghost predicate Inv(g: Graph, gray: set<string>, s: Search) {
    Shape(g, s) && Coloured(g, gray, s) && Linked(g, gray, s) && Lists(g, Done(s), s.out)
  }

  /** What a nested call may not touch. */
  ghost predicate Extends(s0: Search, s: Search) {
    && s0.stack <= s.stack
    && s0.next <= s.next
    && (forall x :: x in s0.index ==> x in s.index && s.index[x] == s0.index[x])
    && (forall x :: x in s0.low ==> x in s.low && s.low[x] == s0.low[x])
  }

  /** A lower vertex of the stack that `v` reaches has the number `low[v]`. */
  ghost predicate LowWitness(g: Graph, s: Search, v: string, stack: seq<string>) {
    v in s.low && exists z :: z in stack && z in s.index && s.index[z] == s.low[v] && Reach(g, v, z)
  }

  /** No edge from `upper` down into `lower` escapes the bound `low[v]`. */
  ghost predicate LowBound(g: Graph, s: Search, v: string, upper: seq<string>, lower: seq<string>) {
    forall x, y :: x in upper && y in lower && Edge(g, x, y) ==> v in s.low && y in s.index && s.low[v] <= s.index[y]
  }

  /** What `strong(v)`, called in state `s0`, leaves behind in state `s`. */
  ghost predicate Outcome(g: Graph, s0: Search, v: string, s: Search) {
    && Extends(s0, s)
    && v in s.index && s.index[v] == s0.next
    && v in s.low && s.low[v] <= s.index[v]
    && (v in s.stack ==> LowWitness(g, s, v, s0.stack))
    && (v !in s.stack ==> s.low[v] == s.index[v])
    && LowBound(g, s, v, s.stack[|s0.stack|..], s0.stack)
  }

  ghost predicate Returned(g: Graph, gray: set<string>, s0: Search, v: string, s: Search) {
    Inv(g, gray, s) && Outcome(g, s0, v, s)
  }

  /** How far the loop of `strong(v)`, entered in state `s0`, has come after `k` edges. */
  ghost predicate Progress(g: Graph, s0: Search, v: string, s: Search, k: nat) {
    && Extends(s0, s)
    && s0.stack + [v] <= s.stack
    && v in s.index && s.index[v] == s0.next
    && v in s.low && s.low[v] <= s.index[v]
    && LowWitness(g, s, v, s.stack)
    && LowBound(g, s, v, s.stack[|s0.stack| + 1..], s0.stack)
    && k <= |Succ(g, v)|
    && (forall w :: w in Succ(g, v)[..k] ==> w in s.index && (w in s0.stack ==> s.low[v] <= s.index[w]))
  }

  ghost predicate Scanning(g: Graph, gray: set<string>, s0: Search, v: string, s: Search, k: nat) {
    && Inv(g, gray, s0)
    && v !in s0.index
    && Inv(g, gray + {v}, s)
    && Progress(g, s0, v, s, k)
  }

  function Entered(s: Search, v: string): Search {
    s.(index := s.index[v := s.next], low := s.low[v := s.next], on := s.on[v := true],
    stack := s.stack + [v], next := s.next + 1)
  }

  lemma {:induction false} EnterShape(g: Graph, s: Search, v: string)
    requires Shape(g, s) && v !in s.index && v in Vertices(g)
    ensures Shape(g, Entered(s, v))
    ensures Done(Entered(s, v)) == Done(s)
  {
    var t := Entered(s, v);
    assert v !in s.stack;
    forall x
      ensures On(t.on, x) <==> x in t.stack
      ensures x in Done(t) <==> x in Done(s)
    {
      assert On(s.on, x) <==> x in s.stack;
    }
  }

  lemma {:induction false} EnterLinked(g: Graph, gray: set<string>, s: Search, v: string)
    requires Linked(g, gray, s) && v !in s.index
    requires forall y :: y in s.stack ==> y in s.index && s.index[y] < s.next
    requires forall x :: x in gray ==> Reach(g, x, v)
    ensures Linked(g, gray + {v}, Entered(s, v))
  {
    var t := Entered(s, v);
    ReachSelf(g, v);
    forall x, y | x in gray + {v} && y in t.stack && Below(t, x, y)
      ensures Reach(g, x, y)
    {
      if x != v && y != v { assert Below(s, x, y); }
    }
    forall y | y in t.stack
      ensures Anchored(g, gray + {v}, t, y)
    {
      if y == v {
        assert Below(t, v, v);
      } else {
        assert Anchored(g, gray, s, y);
        var x :| x in gray && Below(s, x, y) && Reach(g, y, x);
        assert Below(t, x, y);
      }
    }
  }

  lemma {:induction false} EnterColoured(g: Graph, gray: set<string>, s: Search, v: string)
    requires Shape(g, s) && Coloured(g, gray, s) && v !in s.index
    ensures Coloured(g, gray + {v}, Entered(s, v))
  {
    var t := Entered(s, v);
    assert Done(t) == Done(s);
  }

  lemma {:induction false} EnterInv(g: Graph, gray: set<string>, s: Search, v: string)
    requires Inv(g, gray, s) && v !in s.index && v in Vertices(g)
    requires forall x :: x in gray ==> Reach(g, x, v)
    ensures Inv(g, gray + {v}, Entered(s, v))
  {
    EnterShape(g, s, v);
    EnterLinked(g, gray, s, v);
    EnterColoured(g, gray, s, v);
  }

  lemma {:induction false} EnterFrame(g: Graph, s: Search, v: string)
    requires s.low.Keys == s.index.Keys && v !in s.index
    ensures Extends(s, Entered(s, v))
    ensures LowWitness(g, Entered(s, v), v, Entered(s, v).stack)
  {
    var t := Entered(s, v);
    ReachSelf(g, v);
    assert t.stack[|s.stack|] == v;
  }

  lemma {:induction false} Enter(g: Graph, gray: set<string>, s: Search, v: string)
    requires Inv(g, gray, s) && v !in s.index && v in Vertices(g)
    requires forall x :: x in gray ==> Reach(g, x, v)
    ensures Scanning(g, gray, s, v, Entered(s, v), 0)
  {
    EnterInv(g, gray, s, v);
    EnterFrame(g, s, v);
  }

  function Min(a: nat, b: nat): nat {
    if a <= b then a else b
  }

  function Lowered(s: Search, v: string, n: nat): Search
    requires v in s.low
  {
    s.(low := s.low[v := Min(s.low[v], n)])
  }

  lemma {:induction false} LoweredInv(g: Graph, gray: set<string>, s: Search, v: string, n: nat)
    requires Inv(g, gray, s) && v in s.low
    ensures Inv(g, gray, Lowered(s, v, n))
  {
    var t := Lowered(s, v, n);
    assert t.low.Keys == s.low.Keys;
    assert Done(t) == Done(s);
    assert forall x, y :: Below(t, x, y) <==> Below(s, x, y);
    forall y | y in t.stack
      ensures Anchored(g, gray, t, y)
    {
      assert Anchored(g, gray, s, y);
    }
  }

  /** An edge to a vertex already numbered: `low[v]` takes its index if it is on the stack. */
  lemma {:induction false} SeenEdge(g: Graph, gray: set<string>, s0: Search, v: string, s: Search, k: nat, t: Search)
    requires Scanning(g, gray, s0, v, s, k) && k < |Succ(g, v)| && Succ(g, v)[k] in s.index
    requires t == if On(s.on, Succ(g, v)[k]) then Lowered(s, v, s.index[Succ(g, v)[k]]) else s
    ensures Scanning(g, gray, s0, v, t, k + 1)
  {
    var w := Succ(g, v)[k];
    SeenProgress(g, s0, v, s, k, t);
    if On(s.on, w) {
      LoweredInv(g, gray + {v}, s, v, s.index[w]);
    }
  }

  lemma {:induction false} SeenProgress(g: Graph, s0: Search, v: string, s: Search, k: nat, t: Search)
    requires Progress(g, s0, v, s, k) && k < |Succ(g, v)| && Succ(g, v)[k] in s.index
    requires v !in s0.low
    requires forall x :: On(s.on, x) <==> x in s.stack
    requires t == if On(s.on, Succ(g, v)[k]) then Lowered(s, v, s.index[Succ(g, v)[k]]) else s
    ensures Progress(g, s0, v, t, k + 1)
  {
    var w := Succ(g, v)[k];
    ReachEdge(g, v, w);
    assert Succ(g, v)[..k + 1] == Succ(g, v)[..k] + [w];
  }

  lemma {:induction false} GrayReaches(g: Graph, gray: set<string>, s0: Search, v: string, s: Search, x: string)
    requires Linked(g, gray + {v}, s) && Extends(s0, s) && s0.stack + [v] <= s.stack
    requires v in s.index && s.index[v] == s0.next
    requires x in gray && x in s0.index && s0.index[x] < s0.next
    ensures Reach(g, x, v)
  {
    assert s.stack[|s0.stack|] == v;
    assert Below(s, x, v);
  }

  /** Every unfinished vertex reaches the next one to be entered. */
  lemma {:induction false} CallReady(g: Graph, gray: set<string>, s0: Search, v: string, s: Search, k: nat, x: string)
    requires Scanning(g, gray, s0, v, s, k) && k < |Succ(g, v)|
    requires x in gray + {v}
    ensures Reach(g, x, Succ(g, v)[k])
  {
    var w := Succ(g, v)[k];
    ReachEdge(g, v, w);
    if x != v {
      GrayReaches(g, gray, s0, v, s, x);
      ReachTrans(g, x, v, w);
    }
  }

  lemma {:induction false} CalledProgress(g: Graph, s0: Search, v: string, s: Search, k: nat, r: Search)
    requires Progress(g, s0, v, s, k) && k < |Succ(g, v)|
    requires Outcome(g, s, Succ(g, v)[k], r)
    requires v !in s0.low && Succ(g, v)[k] !in s0.stack && s0.next < s.next
    ensures v in r.low
    ensures Progress(g, s0, v, Lowered(r, v, r.low[Succ(g, v)[k]]), k + 1)
  {
    var w := Succ(g, v)[k];
    var t := Lowered(r, v, r.low[w]);
    assert Succ(g, v)[..k + 1] == Succ(g, v)[..k] + [w];
    CalledWitness(g, v, s, w, r);
    CalledBound(g, s0, v, s, w, r);
  }

  lemma {:induction false} CalledWitness(g: Graph, v: string, s: Search, w: string, r: Search)
    requires Outcome(g, s, w, r) && Edge(g, v, w)
    requires v in s.index && v in s.low && s.low[v] <= s.index[v] < s.next
    requires LowWitness(g, s, v, s.stack)
    ensures v in r.low && LowWitness(g, Lowered(r, v, r.low[w]), v, r.stack)
  {
    if r.low[w] < r.low[v] {
      var z :| z in s.stack && z in r.index && r.index[z] == r.low[w] && Reach(g, w, z);
      ReachEdge(g, v, w);
      ReachTrans(g, v, w, z);
    } else {
      var z :| z in s.stack && z in s.index && s.index[z] == s.low[v] && Reach(g, v, z);
    }
  }

  lemma {:induction false} CalledBound(g: Graph, s0: Search, v: string, s: Search, w: string, r: Search)
    requires Extends(s0, s) && Extends(s, r) && |s0.stack| < |s.stack|
    requires v in s.low && w in r.low
    requires LowBound(g, s, v, s.stack[|s0.stack| + 1..], s0.stack)
    requires LowBound(g, r, w, r.stack[|s.stack|..], s.stack)
    ensures v in r.low
    ensures LowBound(g, Lowered(r, v, r.low[w]), v, r.stack[|s0.stack| + 1..], s0.stack)
  {
    assert r.stack[|s0.stack| + 1..] == s.stack[|s0.stack| + 1..] + r.stack[|s.stack|..];
  }

  /** An edge to a new vertex: the nested call returned in state `r`. */
  lemma {:induction false} Called(g: Graph, gray: set<string>, s0: Search, v: string, s: Search, k: nat, r: Search)
    requires Scanning(g, gray, s0, v, s, k) && k < |Succ(g, v)| && Succ(g, v)[k] !in s.index
    requires Returned(g, gray + {v}, s, Succ(g, v)[k], r)
    ensures v in r.low
    ensures Scanning(g, gray, s0, v, Lowered(r, v, r.low[Succ(g, v)[k]]), k + 1)
  {
    CalledProgress(g, s0, v, s, k, r);
    LoweredInv(g, gray + {v}, r, v, r.low[Succ(g, v)[k]]);
  }

  /** The part of the stack pushed since `strong(v)` was entered. */
  function Upper(s0: Search, s: Search): seq<string>
    requires |s0.stack| <= |s.stack|
  {
    s.stack[|s0.stack|..]
  }

  lemma {:induction false} StackSplit(g: Graph, s0: Search, v: string, s: Search, y: string)
    requires Shape(g, s) && s0.stack + [v] <= s.stack
    ensures v in Upper(s0, s) && v in s.index
    ensures y in s.stack <==> y in s0.stack || y in Upper(s0, s)
    ensures y in Upper(s0, s) ==> y in s.index && s.index[v] <= s.index[y] && y !in s0.stack
    ensures y in s0.stack ==> y in s.index && s.index[y] < s.index[v]
  {
    var n := |s0.stack|;
    assert s.stack == s0.stack + Upper(s0, s);
    assert s.stack[n] == v && Upper(s0, s)[0] == v;
    if y in Upper(s0, s) {
      var i :| 0 <= i < |Upper(s0, s)| && Upper(s0, s)[i] == y;
      assert s.stack[n + i] == y;
    }
    if y in s0.stack {
      var j :| 0 <= j < n && s0.stack[j] == y;
      assert s.stack[j] == y;
    }
  }

  lemma {:induction false} KeepAnchored(g: Graph, gray: set<string>, v: string, s: Search, y: string)
    requires Linked(g, gray + {v}, s)
    requires LowWitness(g, s, v, s.stack) && v in s.index && s.low[v] < s.index[v]
    requires y in s.stack
    ensures Anchored(g, gray, s, y)
  {
    var z :| z in s.stack && z in s.index && s.index[z] == s.low[v] && Reach(g, v, z);
    assert Anchored(g, gray + {v}, s, z);
    var x :| x in gray + {v} && Below(s, x, z) && Reach(g, z, x);
    assert Anchored(g, gray + {v}, s, y);
    var u :| u in gray + {v} && Below(s, u, y) && Reach(g, y, u);
    if u == v {
      ReachTrans(g, v, z, x);
      ReachTrans(g, y, v, x);
      assert Below(s, x, y);
    }
  }

  lemma {:induction false} KeepWitness(g: Graph, s0: Search, v: string, s: Search)
    requires Shape(g, s) && s0.stack + [v] <= s.stack
    requires LowWitness(g, s, v, s.stack) && v in s.index && s.low[v] < s.index[v]
    ensures LowWitness(g, s, v, s0.stack)
  {
    var z :| z in s.stack && z in s.index && s.index[z] == s.low[v] && Reach(g, v, z);
    StackSplit(g, s0, v, s, z);
  }

  lemma {:induction false} WholeBound(g: Graph, s0: Search, v: string, s: Search)
    requires Progress(g, s0, v, s, |Succ(g, v)|)
    ensures LowBound(g, s, v, Upper(s0, s), s0.stack)
    ensures forall w :: Edge(g, v, w) ==> w in s.index
  {
    assert Upper(s0, s) == [v] + s.stack[|s0.stack| + 1..];
    assert Succ(g, v)[..|Succ(g, v)|] == Succ(g, v);
  }

  /** `low[v] < index[v]`: the component is not complete and `v` stays on the stack. */
  lemma {:induction false} Keep(g: Graph, gray: set<string>, s0: Search, v: string, s: Search)
    requires Scanning(g, gray, s0, v, s, |Succ(g, v)|)
    requires s.low[v] != s.index[v]
    ensures Returned(g, gray, s0, v, s)
  {
    KeepWitness(g, s0, v, s);
    WholeBound(g, s0, v, s);
    KeepInv(g, gray, s0, v, s);
    assert s.stack[|s0.stack|] == v;
  }

  lemma {:induction false} KeepInv(g: Graph, gray: set<string>, s0: Search, v: string, s: Search)
    requires Inv(g, gray + {v}, s)
    requires LowWitness(g, s, v, s.stack) && v in s.index && s.low[v] < s.index[v]
    requires forall w :: Edge(g, v, w) ==> w in s.index
    ensures Inv(g, gray, s)
  {
    KeepLinked(g, gray, v, s);
  }

  lemma {:induction false} KeepLinked(g: Graph, gray: set<string>, v: string, s: Search)
    requires Linked(g, gray + {v}, s)
    requires LowWitness(g, s, v, s.stack) && v in s.index && s.low[v] < s.index[v]
    ensures Linked(g, gray, s)
  {
    forall y | y in s.stack
      ensures Anchored(g, gray, s, y)
    {
      KeepAnchored(g, gray, v, s, y);
    }
  }

  /** The state after the stack has been popped down to and including `v`. */
  ghost predicate Popped(s0: Search, s: Search, t: Search) {
    && |s0.stack| <= |s.stack|
    && t.index == s.index && t.low == s.low && t.next == s.next
    && t.stack == s0.stack
    && (forall x :: On(t.on, x) <==> On(s.on, x) && x !in Upper(s0, s))
    && if |Upper(s0, s)| > 1
       then |t.out| == |s.out| + 1 && s.out <= t.out && IsSortOf(t.out[|s.out|], Upper(s0, s))
       else t.out == s.out
  }

  ghost predicate IsSortOf(c: seq<string>, s: seq<string>) {
    Increasing(c) && Elements(c) == Elements(s) && |c| == |s|
  }

  /** The popped vertices and the vertices finished before them are closed under edges. */
  lemma {:induction false} PopClosed(g: Graph, gray: set<string>, s0: Search, v: string, s: Search)
    requires Shape(g, s) && Coloured(g, gray + {v}, s) && s0.stack + [v] <= s.stack
    requires gray <= Elements(s0.stack)
    requires LowBound(g, s, v, Upper(s0, s), s0.stack)
    requires forall w :: Edge(g, v, w) ==> w in s.index
    requires v in s.index && v in s.low && s.low[v] == s.index[v]
    ensures Closed(g, Done(s) + Elements(Upper(s0, s)))
  {
    forall x, y | x in Done(s) + Elements(Upper(s0, s)) && Edge(g, x, y)
      ensures y in Done(s) + Elements(Upper(s0, s))
    {
      StackSplit(g, s0, v, s, x);
      StackSplit(g, s0, v, s, y);
      if x !in Done(s) {
        assert y in s.index;
      }
    }
  }

  /** Any two of the popped vertices reach each other. */
  lemma {:induction false} PopReaches(g: Graph, gray: set<string>, s0: Search, v: string, s: Search, y: string)
    requires Shape(g, s) && Linked(g, gray + {v}, s) && s0.stack + [v] <= s.stack
    requires gray <= Elements(s0.stack)
    requires y in Upper(s0, s)
    ensures Mutual(g, v, y)
  {
    StackSplit(g, s0, v, s, y);
    StackSplit(g, s0, v, s, v);
    assert Below(s, v, y);
    assert Anchored(g, gray + {v}, s, y);
    var x :| x in gray + {v} && Below(s, x, y) && Reach(g, y, x);
    if x != v {
      StackSplit(g, s0, v, s, x);
      assert Below(s, x, v);
      ReachTrans(g, y, x, v);
    }
  }

  /** The popped vertices are exactly one strongly connected component. */
  lemma {:induction false} PopWhole(g: Graph, done: set<string>, upper: set<string>, v: string, x: string, y: string)
    requires Closed(g, done) && Closed(g, done + upper) && done !! upper
    requires forall z :: z in upper ==> Mutual(g, v, z)
    requires x in upper
    ensures y in upper <==> Mutual(g, x, y)
  {
    if y in upper {
      assert Mutual(g, v, x) && Mutual(g, v, y);
      MutualTrans(g, x, v, y);
    }
    if Mutual(g, x, y) {
      ClosedReach(g, done + upper, x, y);
      if y in done {
        ClosedReach(g, done, y, x);
      }
    }
  }

  lemma {:induction false} PopLists(g: Graph, done: set<string>, upper: set<string>, out: seq<seq<string>>, c: seq<string>)
    requires Lists(g, done, out)
    requires done !! upper
    requires IsComponent(g, c) && Elements(c) == upper
    ensures Lists(g, done + upper, out + [c])
  {
    var all := out + [c];
    forall x, y | x in done + upper && x != y && Mutual(g, x, y)
      ensures exists d :: d in all && x in d
    {
      if x in done {
        var d :| d in out && x in d;
        assert d in all;
      } else {
        assert c in all && x in c;
      }
    }
    forall i, j, x | 0 <= i < j < |all| && x in all[i]
      ensures x !in all[j]
    {
      if j == |out| {
        assert all[i] == out[i] && out[i] in out;
        assert x in Elements(out[i]);
        assert x in c ==> x in Elements(c);
      }
    }
    forall d | d in all
      ensures IsComponent(g, d) && Elements(d) <= done + upper
    {
      if d != c { assert d in out; }
    }
  }

  lemma {:induction false} SingleLists(g: Graph, done: set<string>, v: string, out: seq<seq<string>>)
    requires Lists(g, done, out)
    requires forall y :: Mutual(g, v, y) ==> y == v
    ensures Lists(g, done + {v}, out)
  {
    forall x, y | x in done + {v} && x != y && Mutual(g, x, y)
      ensures exists d :: d in out && x in d
    {
      assert x in done;
    }
  }

  lemma {:induction false} PopOut(g: Graph, gray: set<string>, s0: Search, v: string, s: Search, t: Search)
    requires Inv(g, gray + {v}, s) && s0.stack + [v] <= s.stack
    requires gray <= Elements(s0.stack)
    requires Closed(g, Done(s) + Elements(Upper(s0, s)))
    requires Popped(s0, s, t)
    ensures Lists(g, Done(s) + Elements(Upper(s0, s)), t.out)
  {
    var upper := Elements(Upper(s0, s));
    forall z | z in upper
      ensures Mutual(g, v, z)
    {
      PopReaches(g, gray, s0, v, s, z);
    }
    forall x, y | x in upper
      ensures y in upper <==> Mutual(g, x, y)
    {
      PopWhole(g, Done(s), upper, v, x, y);
    }
    StackSplit(g, s0, v, s, v);
    if |Upper(s0, s)| > 1 {
      var c := t.out[|s.out|];
      assert t.out == s.out + [c];
      assert forall x :: x in c <==> x in upper by { assert Elements(c) == upper; }
      PopLists(g, Done(s), upper, s.out, c);
    } else {
      assert Upper(s0, s) == [v];
      assert upper == {v};
      SingleLists(g, Done(s), v, s.out);
    }
  }

  lemma {:induction false} PopShape(g: Graph, s0: Search, v: string, s: Search, t: Search)
    requires Shape(g, s) && s0.stack + [v] <= s.stack && Popped(s0, s, t)
    ensures Shape(g, t)
    ensures Done(t) == Done(s) + Elements(Upper(s0, s))
  {
    forall x
      ensures x in Done(t) <==> x in Done(s) + Elements(Upper(s0, s))
      ensures On(t.on, x) <==> x in t.stack
    {
      StackSplit(g, s0, v, s, x);
    }
    forall i, j | 0 <= i < j < |t.stack|
      ensures t.stack[i] in t.index && t.stack[j] in t.index && t.index[t.stack[i]] < t.index[t.stack[j]]
    {
      assert s.stack[i] == t.stack[i] && s.stack[j] == t.stack[j];
    }
  }

  lemma {:induction false} PopLinked(g: Graph, gray: set<string>, s0: Search, v: string, s: Search, t: Search)
    requires Shape(g, s) && Linked(g, gray + {v}, s) && s0.stack + [v] <= s.stack
    requires Popped(s0, s, t)
    ensures Linked(g, gray, t)
  {
    forall x, y | x in gray && y in t.stack && Below(t, x, y)
      ensures Reach(g, x, y)
    {
      StackSplit(g, s0, v, s, y);
      assert Below(s, x, y);
    }
    forall y | y in t.stack
      ensures Anchored(g, gray, t, y)
    {
      StackSplit(g, s0, v, s, y);
      assert Anchored(g, gray + {v}, s, y);
      var x :| x in gray + {v} && Below(s, x, y) && Reach(g, y, x);
      assert Below(t, x, y);
    }
  }

  lemma {:induction false} PopInv(g: Graph, gray: set<string>, s0: Search, v: string, s: Search, t: Search)
    requires Inv(g, gray, s0) && Inv(g, gray + {v}, s)
    requires Progress(g, s0, v, s, |Succ(g, v)|) && s.low[v] == s.index[v]
    requires Popped(s0, s, t)
    ensures Inv(g, gray, t)
  {
    WholeBound(g, s0, v, s);
    PopClosed(g, gray, s0, v, s);
    PopOut(g, gray, s0, v, s, t);
    PopShape(g, s0, v, s, t);
    PopLinked(g, gray, s0, v, s, t);
  }

  lemma {:induction false} PopOutcome(g: Graph, s0: Search, v: string, s: Search, t: Search)
    requires Progress(g, s0, v, s, |Succ(g, v)|) && s.low[v] == s.index[v]
    requires Popped(s0, s, t) && v !in s0.stack
    ensures Outcome(g, s0, v, t)
  {
    assert t.stack[|s0.stack|..] == [];
  }

  /** `low[v] == index[v]`: the vertices above `v` on the stack are its component. */
  lemma {:induction false} Pop(g: Graph, gray: set<string>, s0: Search, v: string, s: Search, t: Search)
    requires Scanning(g, gray, s0, v, s, |Succ(g, v)|)
    requires s.low[v] == s.index[v]
    requires Popped(s0, s, t)
    ensures Returned(g, gray, s0, v, t)
  {
    PopInv(g, gray, s0, v, s, t);
    PopOutcome(g, s0, v, s, t);
  }

  /** The facts about the current vertex that the code itself relies on. */
  lemma {:induction false} ScanFacts(g: Graph, gray: set<string>, s0: Search, v: string, s: Search, k: nat)
    requires Scanning(g, gray, s0, v, s, k)
    ensures Inv(g, gray + {v}, s)
    ensures v in s.index && v in s.low && s.low.Keys == s.index.Keys <= Vertices(g)
    ensures Distinct(s.stack) && s0.stack + [v] <= s.stack
    ensures forall w :: On(s.on, w) ==> w in s.index
  {
  }

  lemma {:induction false} ReturnFacts(g: Graph, gray: set<string>, s0: Search, v: string, s: Search)
    requires Returned(g, gray, s0, v, s)
    ensures Inv(g, gray, s)
    ensures v in s.low && s.low.Keys == s.index.Keys && s0.index.Keys <= s.index.Keys
  {
  }

  class Tarjan {
    const g: Graph
    var index: map<string, nat>
    var low: map<string, nat>
    var on: map<string, bool>
    var stack: seq<string>
    var out: seq<seq<string>>
    var next: nat

    constructor (g: Graph)
      ensures this.g == g
      ensures Snapshot() == Search(map[], map[], map[], [], [], 0)
    {
      this.g := g;
      index, low, on, stack, out, next := map[], map[], map[], [], [], 0;
    }

    ghost function Snapshot(): Search
      reads this
    {
      Search(index, low, on, stack, out, next)
    }

    /** The recursive closure `strong`, with `gray` the calls still open. */
    method Strong(v: string, ghost gray: set<string>)
      requires Inv(g, gray, Snapshot())
      requires v !in index && v in Vertices(g)
      requires forall x :: x in gray ==> Reach(g, x, v)
      modifies this
      ensures Returned(g, gray, old(Snapshot()), v, Snapshot())
      decreases Vertices(g) - index.Keys, 0
    {
      hide Inv, Scanning, Returned;
      ghost var s0 := Snapshot();
      Enter(g, gray, s0, v);
      index, low := index[v := next], low[v := next];
      next := next + 1;
      stack := stack + [v];
      on := on[v := true];
      assert v in Vertices(g) - s0.index.Keys && v !in Vertices(g) - index.Keys;
      Scan(v, gray, s0);
      ghost var s := Snapshot();
      ScanFacts(g, gray, s0, v, s, |Succ(g, v)|);
      if low[v] != index[v] {
        Keep(g, gray, s0, v, s);
        return;
      }
      PopComponent(v, s0);
      Pop(g, gray, s0, v, s, Snapshot());
    }

    method Scan(v: string, ghost gray: set<string>, ghost s0: Search)
      requires Scanning(g, gray, s0, v, Snapshot(), 0)
      modifies this
      ensures Scanning(g, gray, s0, v, Snapshot(), |Succ(g, v)|)
      decreases Vertices(g) - index.Keys, 1
    {
      hide Inv, Scanning, Returned;
      var edges := Succ(g, v);
      var k := 0;
      while k < |edges|
        invariant 0 <= k <= |edges|
        invariant old(index.Keys) <= index.Keys
        invariant Scanning(g, gray, s0, v, Snapshot(), k)
      {
        ghost var s := Snapshot();
        ScanFacts(g, gray, s0, v, s, k);
        var w := edges[k];
        if w !in index {
          Descend(s0, v, s, k, gray);
          Strong(w, gray + {v});
          ReturnFacts(g, gray + {v}, s, w, Snapshot());
          Called(g, gray, s0, v, s, k, Snapshot());
          low := low[v := Min(low[v], low[w])];
        } else {
          if On(on, w) {
            low := low[v := Min(low[v], index[w])];
          }
          SeenEdge(g, gray, s0, v, s, k, Snapshot());
        }
        k := k + 1;
      }
    }

    /** The edge to `w` leads to a name of the graph that every open call reaches. */
    lemma {:induction false} Descend(s0: Search, v: string, s: Search, k: nat, gray: set<string>)
      requires Scanning(g, gray, s0, v, s, k) && k < |Succ(g, v)|
      ensures Succ(g, v)[k] in Vertices(g)
      ensures forall x :: x in gray + {v} ==> Reach(g, x, Succ(g, v)[k])
    {
      SuccInVertices(g, v, k);
      forall x | x in gray + {v}
        ensures Reach(g, x, Succ(g, v)[k])
      {
        CallReady(g, gray, s0, v, s, k, x);
      }
    }

    /** Pops the stack down to `v`, collecting what is popped. */
    method PopTo(v: string, ghost s0: Search) returns (comp: seq<string>)
      requires Distinct(stack) && s0.stack + [v] <= stack
      modifies this`stack, this`on
      ensures stack == s0.stack
      ensures forall x :: On(on, x) <==> On(old(on), x) && x !in old(stack)[|s0.stack|..]
      ensures Distinct(comp) && |comp| == |old(stack)| - |s0.stack|
      ensures Elements(comp) == Elements(old(stack)[|s0.stack|..])
    {
      ghost var all, n := stack, |s0.stack|;
      assert all[n] == v;
      comp := [];
      var w;
      while true
        invariant n < |stack| <= |all| && stack == all[..|stack|]
        invariant Distinct(comp) && |comp| == |all| - |stack|
        invariant Elements(comp) == Elements(all[|stack|..])
        invariant forall x :: On(on, x) <==> On(old(on), x) && x !in all[|stack|..]
        decreases |stack|
      {
        w := stack[|stack| - 1];
        assert all[|stack| - 1..] == [w] + all[|stack|..];
        assert w !in Elements(all[|stack|..]);
        ElementsConcat([w], all[|stack|..]);
        ElementsConcat(comp, [w]);
        stack := stack[..|stack| - 1];
        on := on[w := false];
        comp := comp + [w];
        if w == v {
          break;
        }
      }
      assert |stack| == n;
    }

    /** Reports the popped component when it is larger than one. */
    method PopComponent(v: string, ghost s0: Search)
      requires Distinct(stack) && s0.stack + [v] <= stack
      modifies this`stack, this`on, this`out
      ensures Popped(s0, old(Snapshot()), Snapshot())
    {
      var comp := PopTo(v, s0);
      if |comp| > 1 {
        comp := Sort(comp);
        out := out + [comp];
      }
    }
  }

  /** The answer `Cycles` promises: exactly the components of size above one. */
  ghost predicate AreCycles(g: Graph, out: seq<seq<string>>) {
    && (forall c :: c in out ==> |c| > 1 && Increasing(c))
    && (forall u, w :: u != w ==> ((exists c :: c in out && u in c && w in c) <==> Mutual(g, u, w)))
    && (forall i, j, x :: 0 <= i < j < |out| && x in out[i] ==> x !in out[j])
    && ByFirst(out)
  }

  lemma {:induction false} Start(g: Graph)
    ensures Inv(g, {}, Search(map[], map[], map[], [], [], 0))
  {
  }

  /** With no call open the stack is empty and every numbered vertex is finished. */
  lemma {:induction false} Settled(g: Graph, s: Search)
    requires Inv(g, {}, s)
    ensures s.stack == [] && Closed(g, s.index.Keys) && Lists(g, s.index.Keys, s.out)
  {
    forall y
      ensures y !in s.stack
    {
      assert !Anchored(g, {}, s, y);
    }
    assert Elements(s.stack) == {};
    NoElements(s.stack);
    assert Done(s) == s.index.Keys;
  }

  /** Only a vertex with an edge reaches another one. */
  lemma {:induction false} ReachNeedsKey(g: Graph, u: string, w: string)
    requires Reach(g, u, w) && u != w
    ensures u in g
  {
    var p :| Path(g, u, p, w);
  }

  /** Once every key has been searched, `out` holds all the components. */
  lemma {:induction false} Complete(g: Graph, done: set<string>, out: seq<seq<string>>, u: string, w: string)
    requires g.Keys <= done && Lists(g, done, out) && u != w
    ensures (exists c :: c in out && u in c && w in c) <==> Mutual(g, u, w)
  {
    if Mutual(g, u, w) {
      ReachNeedsKey(g, u, w);
      var c :| c in out && u in c;
      assert IsComponent(g, c);
    }
    if c :| c in out && u in c && w in c {
      assert IsComponent(g, c);
    }
  }

  ghost predicate ByFirst(out: seq<seq<string>>) {
    forall i, j :: 0 <= i < j < |out| ==> FirstLess(out[i], out[j])
  }

  predicate FirstLess(c: seq<string>, d: seq<string>) {
    |c| > 0 && |d| > 0 && Less(c[0], d[0])
  }

  /** `sort.Slice` on the first elements, which differ between components. */
  method SortByFirst(out: seq<seq<string>>) returns (r: seq<seq<string>>)
    requires forall c :: c in out ==> |c| > 0
    requires forall i, j :: 0 <= i < j < |out| ==> out[i][0] != out[j][0]
    ensures ByFirst(r)
    ensures forall c :: c in r <==> c in out
  {
    r := [];
    for n := 0 to |out|
      invariant ByFirst(r)
      invariant forall c :: c in r <==> c in out[..n]
    {
      assert out[..n + 1] == out[..n] + [out[n]];
      assert forall c :: c in out[..n] ==> |c| > 0 && c[0] != out[n][0];
      r := InsertByFirst(out[n], r);
    }
    assert out[..|out|] == out;
  }

  method InsertByFirst(c: seq<string>, s: seq<seq<string>>) returns (r: seq<seq<string>>)
    requires ByFirst(s) && |c| > 0
    requires forall d :: d in s ==> |d| > 0 && d[0] != c[0]
    ensures ByFirst(r)
    ensures forall d :: d in r <==> d in s || d == c
  {
    var i := 0;
    while i < |s| && FirstLess(s[i], c)
      invariant 0 <= i <= |s|
      invariant forall k :: 0 <= k < i ==> FirstLess(s[k], c)
    {
      i := i + 1;
    }
    forall k | i <= k < |s|
      ensures FirstLess(c, s[k])
    {
      AfterFirst(c, s, i, k);
    }
    r := s[..i] + [c] + s[i..];
    InsertedByFirst(c, s, i);
  }

  lemma {:induction false} AfterFirst(c: seq<string>, s: seq<seq<string>>, i: nat, k: nat)
    requires ByFirst(s) && |c| > 0 && i <= k < |s|
    requires forall d :: d in s ==> |d| > 0 && d[0] != c[0]
    requires !FirstLess(s[i], c)
    ensures FirstLess(c, s[k])
  {
    assert s[i] in s;
    LessTrichotomy(s[i][0], c[0]);
    if k > i {
      assert FirstLess(s[i], s[k]);
      LessTransitive(c[0], s[i][0], s[k][0]);
    }
  }

  lemma {:induction false} InsertedByFirst(c: seq<string>, s: seq<seq<string>>, i: nat)
    requires ByFirst(s) && i <= |s|
    requires forall k :: 0 <= k < i ==> FirstLess(s[k], c)
    requires forall k :: i <= k < |s| ==> FirstLess(c, s[k])
    ensures ByFirst(s[..i] + [c] + s[i..])
    ensures forall d :: d in s[..i] + [c] + s[i..] <==> d in s || d == c
  {
    hide FirstLess;
    assert s == s[..i] + s[i..];
  }

  /**
   Tarjan's algorithm over every key: two distinct vertices share a returned
   component exactly when each reaches the other.
   */
  method FindCycles(g: Graph) returns (out: seq<seq<string>>)
    ensures AreCycles(g, out)
  {
    hide Inv, AreCycles;
    var t := new Tarjan(g);
    Start(g);
    var keys := SortedSet(g.Keys);
    for n := 0 to |keys|
      invariant t.g == g
      invariant Inv(g, {}, t.Snapshot())
      invariant forall i :: 0 <= i < n ==> keys[i] in t.index
    {
      if keys[n] !in t.index {
        assert keys[n] in Elements(keys);
        StrongFromRoot(t, keys[n]);
      }
    }
    assert g.Keys <= t.index.Keys by {
      assert forall v :: v in g.Keys ==> v in Elements(keys);
    }
    out := SortComponents(g, t.index.Keys, t.Snapshot(), t.out);
  }

  /** A call of `strong` with no other call open. */
  method StrongFromRoot(t: Tarjan, v: string)
    requires Inv(t.g, {}, t.Snapshot())
    requires v !in t.index && v in t.g
    modifies t
    ensures Inv(t.g, {}, t.Snapshot())
    ensures old(t.index.Keys) + {v} <= t.index.Keys
  {
    hide Inv, Returned;
    ghost var s0 := t.Snapshot();
    t.Strong(v, {});
    ReturnFacts(t.g, {}, s0, v, t.Snapshot());
  }

  method SortComponents(g: Graph, ghost done: set<string>, ghost s: Search, out: seq<seq<string>>) returns (r: seq<seq<string>>)
    requires Inv(g, {}, s) && g.Keys <= done == s.index.Keys && out == s.out
    ensures AreCycles(g, r)
  {
    Settled(g, s);
    forall i, j | 0 <= i < j < |out|
      ensures |out[i]| > 0 && |out[j]| > 0 && out[i][0] != out[j][0]
    {
      assert out[i] in out && out[j] in out;
      assert IsComponent(g, out[i]) && IsComponent(g, out[j]);
      assert out[i][0] in out[i] && out[j][0] in out[j];
    }
    assert forall c :: c in out ==> IsComponent(g, c);
    r := SortByFirst(out);
    SortedCycles(g, done, out, r);
  }

  lemma {:induction false} SortedCycles(g: Graph, done: set<string>, out: seq<seq<string>>, r: seq<seq<string>>)
    requires g.Keys <= done && Lists(g, done, out)
    requires ByFirst(r) && forall c :: c in r <==> c in out
    ensures AreCycles(g, r)
  {
    forall u, w | u != w
      ensures (exists c :: c in r && u in c && w in c) <==> Mutual(g, u, w)
    {
      Complete(g, done, out, u, w);
    }
    forall i, j, x | 0 <= i < j < |r| && x in r[i]
      ensures x !in r[j]
    {
      LessTrichotomy(r[i][0], r[j][0]);
      assert r[i] != r[j] && r[i] in r && r[j] in r;
      var a :| 0 <= a < |out| && out[a] == r[i];
      var b :| 0 <= b < |out| && out[b] == r[j];
      if b < a && x in out[b] { assert false; }
    }
    forall c | c in r
      ensures |c| > 1 && Increasing(c)
    {
      assert c in out && IsComponent(g, c);
    }
  }
}
