/** The in-memory continuation graph: a node table in which each node (a
    continuation) lists the work ids it introduces and the indices of the
    continuations it depends on.  A parent always has a smaller index than
    its child, so the table is a DAG by construction, and the same parent may
    be listed more than once (join(A, A)). */
module Continuations {

  /** Work id.  The library uses random UUID strings; a natural number keeps
      the identity and lets the store allocate fresh ids for join records. */
  type Id = nat

  /** One continuation: the ids of its own work, in the order they were given,
      and the indices of its parent continuations. */
  datatype Node = Node(ids: seq<Id>, parents: seq<nat>)

  type Graph = seq<Node>

  datatype GraphError =
    | EmptyWork       // a continuation was started with no work
    | TooFewParents   // join was given fewer than two continuations

  datatype Result<T> = Success(value: T) | Failure(error: GraphError)

  /** A node handle returned by the builder: the grown table and the new node. */
  datatype Built = Built(graph: Graph, node: nat)

  function Elems(s: seq<Id>): set<Id> {
    set x | x in s
  }

  /** Parents come before children, and a root carries at least one work id. */
  predicate WellFormed(g: Graph) {
    && (forall i, k :: 0 <= i < |g| && 0 <= k < |g[i].parents| ==> g[i].parents[k] < i)
    && (forall i :: 0 <= i < |g| && g[i].parents == [] ==> g[i].ids != [])
  }

  // ---------------------------------------------------------------------------
  // getAllIds: own ids plus every ancestor's ids

  /** Every id introduced by node i or by any of its ancestors. */
  function AllIds(g: Graph, i: nat): set<Id>
    requires WellFormed(g) && i < |g|
    decreases i, 1, 0
  {
    Elems(g[i].ids) + AncestorIds(g, i, |g[i].parents|)
  }

  /** The ids contributed by the first k parents of node i and their ancestors. */
  function AncestorIds(g: Graph, i: nat, k: nat): set<Id>
    requires WellFormed(g) && i < |g| && k <= |g[i].parents|
    decreases i, 0, k
  {
    if k == 0 then {} else AncestorIds(g, i, k - 1) + AllIds(g, g[i].parents[k - 1])
  }

  // ---------------------------------------------------------------------------
  // Reachable continuations

  /** Node i and every continuation reachable from it through parents. */
  function Reach(g: Graph, i: nat): (r: set<nat>)
    requires WellFormed(g) && i < |g|
    ensures i in r && forall j :: j in r ==> j <= i
    decreases i, 1, 0
  {
    {i} + ReachParents(g, i, |g[i].parents|)
  }

  function ReachParents(g: Graph, i: nat, k: nat): (r: set<nat>)
    requires WellFormed(g) && i < |g| && k <= |g[i].parents|
    ensures forall j :: j in r ==> j < i
    decreases i, 0, k
  {
    if k == 0 then {} else ReachParents(g, i, k - 1) + Reach(g, g[i].parents[k - 1])
  }

  /** The ids introduced by the nodes of s: the reference reading of getAllIds. */
  function IdsOf(g: Graph, s: set<nat>): set<Id> {
    set j, x | j in s && 0 <= j < |g| && x in g[j].ids :: x
  }

  // ---------------------------------------------------------------------------
  // hasCycles

  /** Node i introduces an id that one of its ancestors already introduced. */
  predicate Clash(g: Graph, i: nat)
    requires WellFormed(g) && i < |g|
  {
    Elems(g[i].ids) * AncestorIds(g, i, |g[i].parents|) != {}
  }

  /** Some continuation reachable from i (i included) clashes with its ancestors. */
  predicate HasCycles(g: Graph, i: nat)
    requires WellFormed(g) && i < |g|
    decreases i, 1, 0
  {
    Clash(g, i) || CyclicParents(g, i, |g[i].parents|)
  }

  predicate CyclicParents(g: Graph, i: nat, k: nat)
    requires WellFormed(g) && i < |g| && k <= |g[i].parents|
    decreases i, 0, k
  {
    k != 0 && (CyclicParents(g, i, k - 1) || HasCycles(g, g[i].parents[k - 1]))
  }

  // ---------------------------------------------------------------------------
  // Structure of the reachable set

  /** The first m parents of node i are reachable from it, with everything they reach. */
  lemma {:induction false} ReachParentsCovers(g: Graph, i: nat, k: nat, m: nat)
    requires WellFormed(g) && i < |g| && m < k <= |g[i].parents|
    ensures Reach(g, g[i].parents[m]) <= ReachParents(g, i, k)
    decreases k
  {
    if m < k - 1 {
      ReachParentsCovers(g, i, k - 1, m);
    }
  }

  /** Every parent of node i is among the nodes its parents reach. */
  lemma ParentsReached(g: Graph, i: nat)
    requires WellFormed(g) && i < |g|
    ensures forall m :: 0 <= m < |g[i].parents| ==> g[i].parents[m] in ReachParents(g, i, |g[i].parents|)
  {
    forall m | 0 <= m < |g[i].parents|
      ensures g[i].parents[m] in ReachParents(g, i, |g[i].parents|)
    {
      ReachParentsCovers(g, i, |g[i].parents|, m);
    }
  }

  /** Reachability is transitive: whatever a reachable node reaches, i reaches. */
  lemma {:induction false} ReachTransitive(g: Graph, i: nat, j: nat)
    requires WellFormed(g) && i < |g| && j in Reach(g, i)
    ensures Reach(g, j) <= Reach(g, i)
    decreases i
  {
    if j != i {
      var k := ReachWitness(g, i, |g[i].parents|, j);
      ReachTransitive(g, g[i].parents[k], j);
      ReachParentsCovers(g, i, |g[i].parents|, k);
    }
  }

  /** A node in ReachParents(g, i, k) is reached through one of the first k parents. */
  lemma {:induction false} ReachWitness(g: Graph, i: nat, k: nat, j: nat) returns (m: nat)
    requires WellFormed(g) && i < |g| && k <= |g[i].parents| && j in ReachParents(g, i, k)
    ensures m < k && j in Reach(g, g[i].parents[m])
    decreases k
  {
    if j in Reach(g, g[i].parents[k - 1]) {
      m := k - 1;
    } else {
      m := ReachWitness(g, i, k - 1, j);
    }
  }

  /** Every parent of a reachable node is reachable. */
  lemma ReachClosed(g: Graph, i: nat, j: nat, m: nat)
    requires WellFormed(g) && i < |g| && j in Reach(g, i) && m < |g[j].parents|
    ensures g[j].parents[m] in Reach(g, i)
  {
    ReachTransitive(g, i, j);
    ReachParentsCovers(g, j, |g[j].parents|, m);
  }

  // ---------------------------------------------------------------------------
  // getAllIds against its reference reading

  lemma IdsOfUnion(g: Graph, a: set<nat>, b: set<nat>)
    ensures IdsOf(g, a + b) == IdsOf(g, a) + IdsOf(g, b)
  {
  }

  /** getAllIds is exactly the set of ids introduced by the reachable continuations. */
  lemma {:induction false} AllIdsIsReachableIds(g: Graph, i: nat)
    requires WellFormed(g) && i < |g|
    ensures AllIds(g, i) == IdsOf(g, Reach(g, i))
    decreases i, 1, 0
  {
    AncestorIdsIsReachableIds(g, i, |g[i].parents|);
    IdsOfUnion(g, {i}, ReachParents(g, i, |g[i].parents|));
    assert IdsOf(g, {i}) == Elems(g[i].ids);
  }

  lemma {:induction false} AncestorIdsIsReachableIds(g: Graph, i: nat, k: nat)
    requires WellFormed(g) && i < |g| && k <= |g[i].parents|
    ensures AncestorIds(g, i, k) == IdsOf(g, ReachParents(g, i, k))
    decreases i, 0, k
  {
    if k > 0 {
      AncestorIdsIsReachableIds(g, i, k - 1);
      AllIdsIsReachableIds(g, g[i].parents[k - 1]);
      IdsOfUnion(g, ReachParents(g, i, k - 1), Reach(g, g[i].parents[k - 1]));
    }
  }

  // ---------------------------------------------------------------------------
  // hasCycles against its reference reading

  /** hasCycles holds exactly when some reachable continuation clashes with its
      own ancestors. */
  lemma {:induction false} HasCyclesIffReachableClash(g: Graph, i: nat)
    requires WellFormed(g) && i < |g|
    ensures HasCycles(g, i) <==> exists j :: j in Reach(g, i) && Clash(g, j)
    decreases i, 1, 0
  {
    CyclicParentsIffClash(g, i, |g[i].parents|);
  }

  lemma {:induction false} CyclicParentsIffClash(g: Graph, i: nat, k: nat)
    requires WellFormed(g) && i < |g| && k <= |g[i].parents|
    ensures CyclicParents(g, i, k) <==> exists j :: j in ReachParents(g, i, k) && Clash(g, j)
    decreases i, 0, k
  {
    if k > 0 {
      CyclicParentsIffClash(g, i, k - 1);
      HasCyclesIffReachableClash(g, g[i].parents[k - 1]);
    }
  }

  /** The ancestor ids of node i are exactly the ids introduced by its proper
      ancestors, so a clash is an own id that some proper ancestor also introduced. */
  lemma AncestorIdsAreProperAncestorIds(g: Graph, i: nat)
    requires WellFormed(g) && i < |g|
    ensures AncestorIds(g, i, |g[i].parents|) == IdsOf(g, Reach(g, i) - {i})
  {
    AncestorIdsIsReachableIds(g, i, |g[i].parents|);
    assert Reach(g, i) - {i} == ReachParents(g, i, |g[i].parents|);
  }

  // ---------------------------------------------------------------------------
  // Parent-wise readings of the recursive definitions

  lemma {:induction false} AncestorIdsFromParents(g: Graph, i: nat, k: nat)
    requires WellFormed(g) && i < |g| && k <= |g[i].parents|
    ensures forall x :: x in AncestorIds(g, i, k) <==>
      exists m :: 0 <= m < k && x in AllIds(g, g[i].parents[m])
    decreases k
  {
    if k > 0 {
      AncestorIdsFromParents(g, i, k - 1);
    }
  }

  lemma {:induction false} CyclicParentsFromParents(g: Graph, i: nat, k: nat)
    requires WellFormed(g) && i < |g| && k <= |g[i].parents|
    ensures CyclicParents(g, i, k) <==> exists m :: 0 <= m < k && HasCycles(g, g[i].parents[m])
    decreases k
  {
    if k > 0 {
      CyclicParentsFromParents(g, i, k - 1);
    }
  }

  // ---------------------------------------------------------------------------
  // Growing the table

  /** g' keeps every continuation of g at the same index. */
  predicate Extends(g: Graph, g': Graph) {
    |g| <= |g'| && forall j :: 0 <= j < |g| ==> g'[j] == g[j]
  }

  /** Adding continuations changes nothing about the existing ones. */
  lemma {:induction false} ExtendPreserves(g: Graph, g': Graph, i: nat)
    requires WellFormed(g) && WellFormed(g') && Extends(g, g') && i < |g|
    ensures AllIds(g', i) == AllIds(g, i)
    ensures Reach(g', i) == Reach(g, i)
    ensures HasCycles(g', i) == HasCycles(g, i)
    decreases i, 1, 0
  {
    ExtendPreservesParents(g, g', i, |g[i].parents|);
  }

  lemma {:induction false} ExtendPreservesParents(g: Graph, g': Graph, i: nat, k: nat)
    requires WellFormed(g) && WellFormed(g') && Extends(g, g') && i < |g| && k <= |g[i].parents|
    ensures AncestorIds(g', i, k) == AncestorIds(g, i, k)
    ensures ReachParents(g', i, k) == ReachParents(g, i, k)
    ensures CyclicParents(g', i, k) == CyclicParents(g, i, k)
    decreases i, 0, k
  {
    if k > 0 {
      ExtendPreservesParents(g, g', i, k - 1);
      ExtendPreserves(g, g', g[i].parents[k - 1]);
    }
  }

  /** The builder's result: the table grown by exactly the given continuation,
      appended at the end; the old continuations keep their indices, so
      ExtendPreserves carries every fact about them over. */
  ghost predicate Appended(g: Graph, b: Built, n: Node) {
    WellFormed(b.graph) && b.graph == g + [n] && b.node == |g|
  }

  /** The ids an appended continuation contains, in terms of its parents in the
      table it was added to. */
  lemma NewNodeIds(g: Graph, n: Node)
    requires WellFormed(g) && WellFormed(g + [n])
    requires forall k :: 0 <= k < |n.parents| ==> n.parents[k] < |g|
    ensures forall x :: x in AllIds(g + [n], |g|) <==>
      x in n.ids || exists k :: 0 <= k < |n.parents| && x in AllIds(g, n.parents[k])
  {
    var g' := g + [n];
    assert g'[|g|] == n;
    AncestorIdsFromParents(g', |g|, |n.parents|);
    forall k | 0 <= k < |n.parents|
      ensures AllIds(g', n.parents[k]) == AllIds(g, n.parents[k])
    {
      ExtendPreserves(g, g', n.parents[k]);
    }
  }

  /** The new node's parents are cyclic exactly when one of them already was. */
  lemma NewNodeCyclicParents(g: Graph, n: Node)
    requires WellFormed(g) && WellFormed(g + [n])
    requires forall k :: 0 <= k < |n.parents| ==> n.parents[k] < |g|
    ensures CyclicParents(g + [n], |g|, |n.parents|) <==>
      exists k :: 0 <= k < |n.parents| && HasCycles(g, n.parents[k])
  {
    var g' := g + [n];
    assert g'[|g|] == n;
    forall k | 0 <= k < |n.parents|
      ensures HasCycles(g', n.parents[k]) == HasCycles(g, n.parents[k])
    {
      ExtendPreserves(g, g', n.parents[k]);
    }
    CyclicParentsFromParents(g', |g|, |n.parents|);
  }

  /** The new node clashes exactly when one of its ids is an id of a parent's chain. */
  lemma NewNodeClash(g: Graph, n: Node)
    requires WellFormed(g) && WellFormed(g + [n])
    requires forall k :: 0 <= k < |n.parents| ==> n.parents[k] < |g|
    ensures Clash(g + [n], |g|) <==>
      exists x, k :: x in n.ids && 0 <= k < |n.parents| && x in AllIds(g, n.parents[k])
  {
    var g' := g + [n];
    var N := |g|;
    assert g'[N] == n;
    assert Extends(g, g');
    var anc := AncestorIds(g', N, |n.parents|);
    AncestorIdsFromParents(g', N, |n.parents|);
    if Clash(g', N) {
      var x :| x in Elems(n.ids) * anc;
      var k :| 0 <= k < |n.parents| && x in AllIds(g', n.parents[k]);
      ExtendPreserves(g, g', n.parents[k]);
      assert x in n.ids && x in AllIds(g, n.parents[k]);
    }
    if exists x, k :: x in n.ids && 0 <= k < |n.parents| && x in AllIds(g, n.parents[k]) {
      var x, k :| x in n.ids && 0 <= k < |n.parents| && x in AllIds(g, n.parents[k]);
      ExtendPreserves(g, g', n.parents[k]);
      assert x in anc;
      assert x in Elems(n.ids) * anc;
    }
  }

  /** The new node has a cycle exactly when a parent has one or one of its
      own ids occurs in a parent's chain. */
  lemma NewNodeCycles(g: Graph, n: Node)
    requires WellFormed(g) && WellFormed(g + [n])
    requires forall k :: 0 <= k < |n.parents| ==> n.parents[k] < |g|
    ensures HasCycles(g + [n], |g|) <==>
      || (exists k :: 0 <= k < |n.parents| && HasCycles(g, n.parents[k]))
      || (exists x, k :: x in n.ids && 0 <= k < |n.parents| && x in AllIds(g, n.parents[k]))
  {
    assert (g + [n])[|g|] == n;
    NewNodeCyclicParents(g, n);
    NewNodeClash(g, n);
  }

  // ---------------------------------------------------------------------------
  // The builder: constructor, then, join

  /** new WorkContinuationImpl(works): a root continuation with no parents. */
  function Begin(g: Graph, works: seq<Id>): (r: Result<Built>)
    requires WellFormed(g)
    ensures r.Success? <==> works != []
    ensures r.Failure? ==> r.error == EmptyWork
    ensures r.Success? ==>
      && Appended(g, r.value, Node(works, []))
      && AllIds(r.value.graph, r.value.node) == Elems(works)
      && !HasCycles(r.value.graph, r.value.node)
  {
    if works == [] then Failure(EmptyWork)
    else
      var n := Node(works, []);
        Success(Built(g + [n], |g|))
  }

  /** c.then(works): a continuation whose only parent is c. */
  function Then(g: Graph, c: nat, works: seq<Id>): (b: Built)
    requires WellFormed(g) && c < |g|
    ensures Appended(g, b, Node(works, [c]))
    ensures AllIds(b.graph, b.node) == Elems(works) + AllIds(g, c)
    ensures HasCycles(b.graph, b.node) <==> HasCycles(g, c) || Elems(works) * AllIds(g, c) != {}
  {
    var n := Node(works, [c]);
    NewNodeIds(g, n);
    NewNodeCycles(g, n);
    assert AllIds(g + [n], |g|) == Elems(works) + AllIds(g, c);
    assert (exists x, k :: x in works && 0 <= k < 1 && x in AllIds(g, [c][k])) <==>
           Elems(works) * AllIds(g, c) != {}
    by {
      if Elems(works) * AllIds(g, c) != {} {
        var x :| x in Elems(works) * AllIds(g, c);
        assert x in works && x in AllIds(g, [c][0]);
      }
      if exists x, k :: x in works && 0 <= k < 1 && x in AllIds(g, [c][k]) {
        var x, k :| x in works && 0 <= k < 1 && x in AllIds(g, [c][k]);
        assert x in Elems(works) * AllIds(g, c);
      }
    }
    Built(g + [n], |g|)
  }

  /** The continuation a join adds: own work ws (empty for a pure join) and the
      joined continuations as parents. */
  function JoinNode(g: Graph, ws: seq<Id>, cs: seq<nat>): (r: Result<Built>)
    requires WellFormed(g) && forall k :: 0 <= k < |cs| ==> cs[k] < |g|
    ensures r.Success? <==> |cs| >= 2
    ensures r.Failure? ==> r.error == TooFewParents
    ensures r.Success? ==>
      && Appended(g, r.value, Node(ws, cs))
      && (forall x :: x in AllIds(r.value.graph, r.value.node) <==>
            x in ws || exists k :: 0 <= k < |cs| && x in AllIds(g, cs[k]))
      && (HasCycles(r.value.graph, r.value.node) <==>
            || (exists k :: 0 <= k < |cs| && HasCycles(g, cs[k]))
            || (exists x, k :: x in ws && 0 <= k < |cs| && x in AllIds(g, cs[k])))
  {
    if |cs| < 2 then Failure(TooFewParents)
    else
      var n := Node(ws, cs);
      NewNodeIds(g, n);
      NewNodeCycles(g, n);
      Success(Built(g + [n], |g|))
  }

  /** WorkContinuation.join(c1, c2, ...): a fan-in continuation with no work of its own. */
  function Join(g: Graph, cs: seq<nat>): (r: Result<Built>)
    requires WellFormed(g) && forall k :: 0 <= k < |cs| ==> cs[k] < |g|
    ensures r.Success? <==> |cs| >= 2
    ensures r.Success? ==>
      && Appended(g, r.value, Node([], cs))
      && (forall x :: x in AllIds(r.value.graph, r.value.node) <==>
            exists k :: 0 <= k < |cs| && x in AllIds(g, cs[k]))
      && (HasCycles(r.value.graph, r.value.node) <==> exists k :: 0 <= k < |cs| && HasCycles(g, cs[k]))
  {
    JoinNode(g, [], cs)
  }

  /** WorkContinuation.join(work, c1, c2, ...): a fan-in continuation that also
      introduces work. */
  function JoinWith(g: Graph, w: Id, cs: seq<nat>): (r: Result<Built>)
    requires WellFormed(g) && forall k :: 0 <= k < |cs| ==> cs[k] < |g|
    ensures r.Success? <==> |cs| >= 2
    ensures r.Success? ==>
      && Appended(g, r.value, Node([w], cs))
      && (forall x :: x in AllIds(r.value.graph, r.value.node) <==>
            x == w || exists k :: 0 <= k < |cs| && x in AllIds(g, cs[k]))
      && (HasCycles(r.value.graph, r.value.node) <==>
            || (exists k :: 0 <= k < |cs| && HasCycles(g, cs[k]))
            || (exists k :: 0 <= k < |cs| && w in AllIds(g, cs[k])))
  {
    assert (exists x, k :: x in [w] && 0 <= k < |cs| && x in AllIds(g, cs[k])) <==>
           (exists k :: 0 <= k < |cs| && w in AllIds(g, cs[k]))
    by {
      if exists k :: 0 <= k < |cs| && w in AllIds(g, cs[k]) {
        var k :| 0 <= k < |cs| && w in AllIds(g, cs[k]);
        assert w in [w];
      }
    }
    JoinNode(g, [w], cs)
  }

  // ---------------------------------------------------------------------------
  // Cycle detection with one memo entry per continuation

  /** Decides hasCycles for node top in one pass over the table, memoising each
      continuation's id closure and cycle verdict, so a continuation shared by
      several paths (a diamond) is examined once. */
  method DetectCycles(g: Graph, top: nat) returns (cyclic: bool)
    requires WellFormed(g) && top < |g|
    ensures cyclic == HasCycles(g, top)
    ensures cyclic <==> exists j :: j in Reach(g, top) && Clash(g, j)
  {
    var all := new set<Id>[top + 1];
    var cyc := new bool[top + 1];
    var i := 0;
    while i <= top
      invariant 0 <= i <= top + 1
      invariant forall j :: 0 <= j < i ==> all[j] == AllIds(g, j) && cyc[j] == HasCycles(g, j)
    {
      var ps := g[i].parents;
      var anc: set<Id> := {};
      var anyCyclic := false;
      var k := 0;
      while k < |ps|
        invariant 0 <= k <= |ps|
        invariant anc == AncestorIds(g, i, k) && anyCyclic == CyclicParents(g, i, k)
        invariant forall j :: 0 <= j < i ==> all[j] == AllIds(g, j) && cyc[j] == HasCycles(g, j)
      {
        anc := anc + all[ps[k]];
        anyCyclic := anyCyclic || cyc[ps[k]];
        k := k + 1;
      }
      all[i] := Elems(g[i].ids) + anc;
      cyc[i] := anyCyclic || Elems(g[i].ids) * anc != {};
      i := i + 1;
    }
    cyclic := cyc[top];
    HasCyclesIffReachableClash(g, top);
  }

  // ---------------------------------------------------------------------------
  // Enqueued flags over the table

  /** Every parent of a flagged continuation is flagged as well. */
  ghost predicate Closed(g: Graph, e: seq<bool>)
    requires WellFormed(g) && |e| == |g|
  {
    forall i, k :: 0 <= i < |g| && 0 <= k < |g[i].parents| && e[i] ==> e[g[i].parents[k]]
  }

  /** The recursive walk of the test helper verifyEnqueued: the node is flagged,
      and so, recursively, is each of its parents. */
  ghost predicate VerifyEnqueued(g: Graph, e: seq<bool>, i: nat)
    requires WellFormed(g) && |e| == |g| && i < |g|
    decreases i
  {
    e[i] && forall k :: 0 <= k < |g[i].parents| ==> VerifyEnqueued(g, e, g[i].parents[k])
  }

  /** A flagged node of a closed flag table has every reachable node flagged. */
  lemma {:induction false} ClosedReach(g: Graph, e: seq<bool>, i: nat, j: nat)
    requires WellFormed(g) && |e| == |g| && i < |g| && Closed(g, e) && e[i]
    requires j in Reach(g, i)
    ensures e[j]
    decreases i
  {
    if j != i {
      var m := ReachWitness(g, i, |g[i].parents|, j);
      ClosedReach(g, e, g[i].parents[m], j);
    }
  }

  /** verifyEnqueued succeeds exactly when every reachable continuation is flagged. */
  lemma {:induction false} VerifyEnqueuedIffReachFlagged(g: Graph, e: seq<bool>, i: nat)
    requires WellFormed(g) && |e| == |g| && i < |g|
    ensures VerifyEnqueued(g, e, i) <==> forall j :: j in Reach(g, i) ==> e[j]
    decreases i
  {
    forall k | 0 <= k < |g[i].parents|
      ensures VerifyEnqueued(g, e, g[i].parents[k]) <==>
        forall j :: j in Reach(g, g[i].parents[k]) ==> e[j]
      ensures Reach(g, g[i].parents[k]) <= Reach(g, i)
    {
      VerifyEnqueuedIffReachFlagged(g, e, g[i].parents[k]);
      ReachParentsCovers(g, i, |g[i].parents|, k);
    }
    if VerifyEnqueued(g, e, i) {
      forall j | j in Reach(g, i) ensures e[j] {
        if j != i {
          var m := ReachWitness(g, i, |g[i].parents|, j);
          assert VerifyEnqueued(g, e, g[i].parents[m]);
        }
      }
    }
  }
}
