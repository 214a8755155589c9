/** The behaviours the continuation tests exercise, replayed on the model:
    each method builds the test's graph with the builder functions, runs the
    operation under test, and states the test's assertions as postconditions. */
module Scenarios {
  import opened Continuations

  /** testContinuation_noParent: a root continuation has no parents, its ids
      are its work, and its chain holds one id. */
  method NoParent(w: Id) returns (g: Graph, c: nat)
    ensures WellFormed(g) && c < |g|
    ensures g[c].parents == [] && g[c].ids == [w]
    ensures AllIds(g, c) == {w} && |AllIds(g, c)| == 1
  {
    var r := Begin([], [w]);
    g, c := r.value.graph, r.value.node;
    assert Elems([w]) == {w};
  }

  /** testContinuation_singleChain: then() makes the root the only parent and
      the chain holds both ids. */
  method SingleChain(a: Id, b: Id) returns (g: Graph, root: nat, dependent: nat)
    requires a != b
    ensures WellFormed(g) && root < |g| && dependent < |g|
    ensures g[dependent].parents == [root] && g[dependent].ids == [b]
    ensures AllIds(g, dependent) == {a, b} && |AllIds(g, dependent)| == 2
  {
    var r := Begin([], [a]);
    assert Elems([a]) == {a} && Elems([b]) == {b};
    var d := Then(r.value.graph, r.value.node, [b]);
    g, root, dependent := d.graph, r.value.node, d.node;
  }

  /** testContinuation_join and testContinuation_withWorkJoin: a join's
      parents are the joined continuations, and its ids are the work it
      introduces, if any. */
  method JoinTwo(a: Id, b: Id, w: Id) returns (g: Graph, first: nat, second: nat, join: nat, withWork: nat)
    ensures WellFormed(g) && first < |g| && second < |g| && join < |g| && withWork < |g|
    ensures first != second
    ensures g[join].parents == [first, second] && g[join].ids == []
    ensures g[withWork].parents == [first, second] && g[withWork].ids == [w]
  {
    var r1 := Begin([], [a]);
    var r2 := Begin(r1.value.graph, [b]);
    first, second := r1.value.node, r2.value.node;
    var j := Join(r2.value.graph, [first, second]);
    var jw := JoinWith(j.value.graph, w, [first, second]);
    g, join, withWork := jw.value.graph, j.value.node, jw.value.node;
  }

  /** testContinuation_hasCycles: A and B then C are joined, and the join is
      followed by B again; B depends on itself. */
  method CycleThroughJoin(a: Id, b: Id, c: Id) returns (g: Graph, top: nat, cyclic: bool)
    requires a != b && b != c && a != c
    ensures WellFormed(g) && top < |g|
    ensures |g| == 5 && g[0] == Node([a], []) && g[1] == Node([b], []) && g[2] == Node([c], [1])
    ensures g[3] == Node([], [0, 2]) && g[4] == Node([b], [3])
    ensures top == 4 && cyclic
  {
    var rA := Begin([], [a]);
    var rB := Begin(rA.value.graph, [b]);
    assert rB.value.graph == [Node([a], []), Node([b], [])];
    var bc := Then(rB.value.graph, rB.value.node, [c]);
    assert bc.graph == [Node([a], []), Node([b], []), Node([c], [1])];
    assert b in AllIds(bc.graph, bc.node);
    var join := Join(bc.graph, [rA.value.node, bc.node]);
    assert b in AllIds(bc.graph, [rA.value.node, bc.node][1]);
    assert b in AllIds(join.value.graph, join.value.node);
    assert join.value.graph == [Node([a], []), Node([b], []), Node([c], [1]), Node([], [0, 2])];
    var withCycles := Then(join.value.graph, join.value.node, [b]);
    assert b in Elems([b]) * AllIds(join.value.graph, join.value.node);
    g, top := withCycles.graph, withCycles.node;
    cyclic := DetectCycles(g, top);
  }

  /** testContinuation_hasCycles2: A followed by A. */
  method SelfLoop(a: Id) returns (g: Graph, top: nat, cyclic: bool)
    ensures WellFormed(g) && top < |g|
    ensures g == [Node([a], []), Node([a], [0])] && top == 1 && cyclic
  {
    var rA := Begin([], [a]);
    var again := Then(rA.value.graph, rA.value.node, [a]);
    assert a in Elems([a]) * AllIds(rA.value.graph, rA.value.node);
    g, top := again.graph, again.node;
    cyclic := DetectCycles(g, top);
  }

  /** testContinuation_hasCycles3: two cyclic chains A then A joined; the join
      inherits their cycles. */
  method JoinOfCycles(a: Id) returns (g: Graph, top: nat, cyclic: bool)
    ensures WellFormed(g) && top < |g|
    ensures g == [Node([a], []), Node([a], [0]), Node([a], [0]), Node([], [1, 2])]
    ensures top == 3 && cyclic
  {
    var rA := Begin([], [a]);
    var first := Then(rA.value.graph, rA.value.node, [a]);
    assert a in Elems([a]) * AllIds(rA.value.graph, rA.value.node);
    assert first.graph == [Node([a], []), Node([a], [0])];
    var second := Then(first.graph, rA.value.node, [a]);
    assert second.graph == [Node([a], []), Node([a], [0]), Node([a], [0])];
    ExtendPreserves(first.graph, second.graph, first.node);
    var joined := Join(second.graph, [first.node, second.node]);
    assert HasCycles(second.graph, [first.node, second.node][0]);
    g, top := joined.value.graph, joined.value.node;
    cyclic := DetectCycles(g, top);
  }

  /** testContinuation_hasCycles4: A joined with itself, then C, then A. */
  method CycleBelowSelfJoin(a: Id, c: Id) returns (g: Graph, top: nat, cyclic: bool)
    requires a != c
    ensures WellFormed(g) && top < |g|
    ensures g == [Node([a], []), Node([], [0, 0]), Node([c], [1]), Node([a], [2])]
    ensures top == 3 && cyclic
  {
    var rA := Begin([], [a]);
    var rB := Join(rA.value.graph, [rA.value.node, rA.value.node]);
    assert a in AllIds(rA.value.graph, [rA.value.node, rA.value.node][0]);
    assert a in AllIds(rB.value.graph, rB.value.node);
    assert rB.value.graph == [Node([a], []), Node([], [0, 0])];
    var rC := Then(rB.value.graph, rB.value.node, [c]);
    assert rC.graph == [Node([a], []), Node([], [0, 0]), Node([c], [1])];
    assert a in AllIds(rC.graph, rC.node);
    var withCycles := Then(rC.graph, rC.node, [a]);
    assert a in Elems([a]) * AllIds(rC.graph, rC.node);
    g, top := withCycles.graph, withCycles.node;
    cyclic := DetectCycles(g, top);
  }

  /** testContinuation_hasNoCycles: roots A B and B C joined; sharing B
      between siblings is not a cycle. */
  method SharedSiblings(a: Id, b: Id, c: Id) returns (g: Graph, top: nat, cyclic: bool)
    requires a != b && b != c && a != c
    ensures WellFormed(g) && top < |g|
    ensures g == [Node([a, b], []), Node([b, c], []), Node([], [0, 1])]
    ensures top == 2 && !cyclic
  {
    var rAB := Begin([], [a, b]);
    var rBC := Begin(rAB.value.graph, [b, c]);
    var joined := Join(rBC.value.graph, [rAB.value.node, rBC.value.node]);
    g, top := joined.value.graph, joined.value.node;
    cyclic := DetectCycles(g, top);
  }

  /** A, then B after A and C after A, appended to g: the fork both halves of
      testContinuation_hasNoCycles2 build. */
  method Fork(g: Graph, a: Id, b: Id, c: Id) returns (g': Graph, left: nat, right: nat)
    requires WellFormed(g) && a != b && a != c
    ensures WellFormed(g') && g' == g + [Node([a], []), Node([b], [|g|]), Node([c], [|g|])]
    ensures left == |g| + 1 && right == |g| + 2
    ensures !HasCycles(g', left) && !HasCycles(g', right)
  {
    var rA := Begin(g, [a]);
    var gA, nA := rA.value.graph, rA.value.node;
    assert gA == g + [Node([a], [])];
    var rB := Then(gA, nA, [b]);
    assert rB.graph == g + [Node([a], []), Node([b], [|g|])];
    assert Elems([b]) * AllIds(gA, nA) == {};
    ExtendPreserves(gA, rB.graph, nA);
    var rC := Then(rB.graph, nA, [c]);
    assert rC.graph == g + [Node([a], []), Node([b], [|g|]), Node([c], [|g|])];
    assert Elems([c]) * AllIds(rB.graph, nA) == {};
    ExtendPreserves(rB.graph, rC.graph, rB.node);
    g', left, right := rC.graph, rB.node, rC.node;
  }

  /** The two forks of testContinuation_hasNoCycles2, side by side. */
  method TwoForks(a: Id, b: Id, c: Id) returns (g: Graph, parents: seq<nat>)
    requires a != b && b != c && a != c
    ensures WellFormed(g)
    ensures g == [Node([a], []), Node([b], [0]), Node([c], [0]), Node([a], []), Node([b], [3]), Node([c], [3])]
    ensures parents == [1, 2, 4, 5]
    ensures forall p :: p in parents ==> p < |g| && !HasCycles(g, p)
  {
    var g3, b1, c1 := Fork([], a, b, c);
    var b2, c2;
    g, b2, c2 := Fork(g3, a, b, c);
    ExtendPreserves(g3, g, b1);
    ExtendPreserves(g3, g, c1);
    parents := [b1, c1, b2, c2];
  }

  /** testContinuation_hasNoCycles2: two copies of A with B and C after each,
      all four joined; the same ids on parallel branches are not a cycle. */
  method TwoDiamonds(a: Id, b: Id, c: Id) returns (g: Graph, top: nat, cyclic: bool)
    requires a != b && b != c && a != c
    ensures WellFormed(g) && top < |g|
    ensures g == [Node([a], []), Node([b], [0]), Node([c], [0]),
                  Node([a], []), Node([b], [3]), Node([c], [3]), Node([], [1, 2, 4, 5])]
    ensures top == 6 && !cyclic
  {
    var g6, parents := TwoForks(a, b, c);
    var joined := Join(g6, parents);
    g, top := joined.value.graph, joined.value.node;
    cyclic := DetectCycles(g, top);
  }

  /** The two joins of testContinuation_hasNoCycles3: A with B and A with C. */
  method SharedRootHalves(a: Id, b: Id, c: Id) returns (g: Graph, first: nat, second: nat)
    ensures WellFormed(g)
    ensures g == [Node([a], []), Node([b], []), Node([c], []), Node([], [0, 1]), Node([], [0, 2])]
    ensures first == 3 && second == 4
    ensures !HasCycles(g, first) && !HasCycles(g, second)
  {
    var rA := Begin([], [a]);
    var rB := Begin(rA.value.graph, [b]);
    var rC := Begin(rB.value.graph, [c]);
    var nA, nB, nC := rA.value.node, rB.value.node, rC.value.node;
    var g3 := rC.value.graph;
    assert g3 == [Node([a], []), Node([b], []), Node([c], [])];
    ExtendPreserves(rA.value.graph, g3, nA);
    ExtendPreserves(rB.value.graph, g3, nB);
    var cs1 := [nA, nB];
    forall k | 0 <= k < |cs1| ensures !HasCycles(g3, cs1[k]) {
      if k == 0 {} else {}
    }
    var j1 := Join(g3, cs1);
    var g4 := j1.value.graph;
    assert g4 == [Node([a], []), Node([b], []), Node([c], []), Node([], [0, 1])];
    ExtendPreserves(g3, g4, nA);
    ExtendPreserves(g3, g4, nC);
    var cs2 := [nA, nC];
    forall k | 0 <= k < |cs2| ensures !HasCycles(g4, cs2[k]) {
      if k == 0 {} else {}
    }
    var j2 := Join(g4, cs2);
    g := j2.value.graph;
    assert g == [Node([a], []), Node([b], []), Node([c], []), Node([], [0, 1]), Node([], [0, 2])];
    ExtendPreserves(g4, g, j1.value.node);
    first, second := j1.value.node, j2.value.node;
  }

  /** testContinuation_hasNoCycles3: A joined with B and A joined with C, the
      two joins joined; reaching A along two paths is not a cycle. */
  method SharedRoot(a: Id, b: Id, c: Id) returns (g: Graph, top: nat, cyclic: bool)
    ensures WellFormed(g) && top < |g|
    ensures g == [Node([a], []), Node([b], []), Node([c], []),
                  Node([], [0, 1]), Node([], [0, 2]), Node([], [3, 4])]
    ensures top == 5 && !cyclic && !HasCycles(g, top)
  {
    var g5, first, second := SharedRootHalves(a, b, c);
    var cs := [first, second];
    forall k | 0 <= k < |cs| ensures !HasCycles(g5, cs[k]) {
      if k == 0 {} else {}
    }
    var joined := Join(g5, cs);
    g, top := joined.value.graph, joined.value.node;
    cyclic := DetectCycles(g, top);
  }
}
