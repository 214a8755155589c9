/** The enqueue tests replayed on a work manager: each method builds the
    test's table with the builder functions, enqueues it, and states the
    test's assertions (verifyEnqueued, verifyScheduled, no second
    markEnqueued) as postconditions. */
module EnqueueScenarios {
  import opened Continuations
  import opened Merging
  import opened Store
  import opened Manager
  import Scenarios

  /** testContinuation_enqueue: a root is not enqueued before enqueueBlocking()
      and is afterwards; the scheduler is called once, and every record
      eligible for scheduling is among the ones it was given. */
  method EnqueueRoot(w: Id) returns (m: WorkManager, before: bool, outcome: Outcome)
    ensures m.Valid() && |m.graph| == 1
    ensures !before && outcome == Done
    ensures VerifyEnqueued(m.graph, m.enqueued[..], 0)
    ensures |m.scheduled| == 1
    ensures forall x :: x in m.records && m.records[x].state == Enqueued ==> x in m.scheduled[0]
  {
    var r := Begin([], [w]);
    m := new WorkManager(r.value.graph);
    before := m.IsEnqueued(0);
    outcome := m.EnqueueBlocking(0);
  }

  /** The chain of testContinuation_chainEnqueue: a root, then one work, then two. */
  method Chain(a: Id, b: Id, c: Id, d: Id) returns (g: Graph, top: nat)
    requires a != b && a != c && a != d && b != c && b != d && c != d
    ensures WellFormed(g) && g == [Node([a], []), Node([b], [0]), Node([c, d], [1])]
    ensures top == 2 && !HasCycles(g, top)
  {
    var root := Begin([], [a]);
    var middle := Then(root.value.graph, root.value.node, [b]);
    assert Elems([b]) * AllIds(root.value.graph, root.value.node) == {};
    var chain := Then(middle.graph, middle.node, [c, d]);
    assert Elems([c, d]) * AllIds(middle.graph, middle.node) == {};
    g, top := chain.graph, chain.node;
  }

  /** testContinuation_chainEnqueue: enqueueing the end of the chain enqueues
      the root as well, with one scheduler call. */
  method ChainEnqueue(a: Id, b: Id, c: Id, d: Id) returns (m: WorkManager, outcome: Outcome)
    requires a != b && a != c && a != d && b != c && b != d && c != d
    ensures fresh(m) && fresh(m.enqueued)
    ensures m.Valid() && |m.graph| == 3
    ensures outcome == Done
    ensures VerifyEnqueued(m.graph, m.enqueued[..], 2) && VerifyEnqueued(m.graph, m.enqueued[..], 0)
    ensures |m.scheduled| == 1
    ensures forall x :: x in m.records && m.records[x].state == Enqueued ==> x in m.scheduled[0]
  {
    var g, top := Chain(a, b, c, d);
    m := new WorkManager(g);
    outcome := m.EnqueueBlocking(top);
    assert VerifyEnqueued(m.graph, m.enqueued[..], 1);
  }

  /** testContinuation_chainEnqueueNoOpOnRetry: enqueueing the chain a second
      time leaves everything as it was, markEnqueued() included. */
  method ChainEnqueueNoOpOnRetry(a: Id, b: Id, c: Id, d: Id)
    returns (m: WorkManager, first: Outcome, second: Outcome, ghost marks: seq<nat>)
    requires a != b && a != c && a != d && b != c && b != d && c != d
    ensures m.Valid() && |m.graph| == 3
    ensures first == Done && second == AlreadyEnqueued
    ensures VerifyEnqueued(m.graph, m.enqueued[..], 0)
    ensures m.marked == marks && |m.scheduled| == 1
  {
    m, first := ChainEnqueue(a, b, c, d);
    marks := m.marked;
    second := m.EnqueueBlocking(2);
  }

  /** The two pair joins of testContinuation_joinAndEnqueue: A with B, C with D. */
  method Pairs(a: Id, b: Id, c: Id, d: Id) returns (g: Graph, first: nat, second: nat)
    ensures WellFormed(g) && |g| == 6
    ensures g[0] == Node([a], []) && g[1] == Node([b], []) && g[2] == Node([c], []) && g[3] == Node([d], [])
    ensures g[4] == Node([], [0, 1]) && g[5] == Node([], [2, 3])
    ensures first == 4 && second == 5
    ensures !HasCycles(g, first) && !HasCycles(g, second)
  {
    var rA := Begin([], [a]);
    var rB := Begin(rA.value.graph, [b]);
    var rC := Begin(rB.value.graph, [c]);
    var rD := Begin(rC.value.graph, [d]);
    var nA, nB, nC, nD := rA.value.node, rB.value.node, rC.value.node, rD.value.node;
    var g4 := rD.value.graph;
    assert g4 == [Node([a], []), Node([b], []), Node([c], []), Node([d], [])];
    ExtendPreserves(rA.value.graph, g4, nA);
    ExtendPreserves(rB.value.graph, g4, nB);
    ExtendPreserves(rC.value.graph, g4, nC);
    var cs1 := [nA, nB];
    forall k | 0 <= k < |cs1| ensures !HasCycles(g4, cs1[k]) {
      if k == 0 {} else {}
    }
    var j1 := Join(g4, cs1);
    var g5 := j1.value.graph;
    assert g5 == g4 + [Node([], [0, 1])];
    ExtendPreserves(g4, g5, nC);
    ExtendPreserves(g4, g5, nD);
    var cs2 := [nC, nD];
    forall k | 0 <= k < |cs2| ensures !HasCycles(g5, cs2[k]) {
      if k == 0 {} else {}
    }
    var j2 := Join(g5, cs2);
    g := j2.value.graph;
    assert g == g5 + [Node([], [2, 3])];
    ExtendPreserves(g5, g, j1.value.node);
    first, second := j1.value.node, j2.value.node;
  }

  /** The table of testContinuation_joinAndEnqueue: the two pair joins joined. */
  method JoinOfJoins(a: Id, b: Id, c: Id, d: Id) returns (g: Graph, top: nat)
    ensures WellFormed(g) && |g| == 7
    ensures g[0] == Node([a], []) && g[1] == Node([b], []) && g[2] == Node([c], []) && g[3] == Node([d], [])
    ensures g[4] == Node([], [0, 1]) && g[5] == Node([], [2, 3]) && g[6] == Node([], [4, 5])
    ensures top == 6 && !HasCycles(g, top)
  {
    var g6, first, second := Pairs(a, b, c, d);
    var cs := [first, second];
    forall k | 0 <= k < |cs| ensures !HasCycles(g6, cs[k]) {
      if k == 0 {} else {}
    }
    var joined := Join(g6, cs);
    g, top := joined.value.graph, joined.value.node;
  }

  /** testContinuation_joinAndEnqueue: enqueueing the join of two joins
      enqueues all seven continuations, gives each of the three pure joins a
      join id of its own, and calls the scheduler once. */
  method JoinAndEnqueue(a: Id, b: Id, c: Id, d: Id) returns (m: WorkManager, outcome: Outcome)
    ensures m.Valid() && |m.graph| == 7
    ensures outcome == Done
    ensures VerifyEnqueued(m.graph, m.enqueued[..], 6)
    ensures m.joinIds.Keys == {4, 5, 6}
    ensures m.joinIds[4] != m.joinIds[5] && m.joinIds[4] != m.joinIds[6] && m.joinIds[5] != m.joinIds[6]
    ensures |m.scheduled| == 1
    ensures forall x :: x in m.records && m.records[x].state == Enqueued ==> x in m.scheduled[0]
  {
    var g, top := JoinOfJoins(a, b, c, d);
    m := new WorkManager(g);
    outcome := m.EnqueueBlocking(top);
    assert VerifyEnqueued(m.graph, m.enqueued[..], 4) && VerifyEnqueued(m.graph, m.enqueued[..], 5);
    OnePerPureJoin(m.graph, m.idBound, m.Snap());
  }

  /** With the join of testContinuation_joinAndEnqueue enqueued, the three pure
      joins, and only they, hold join ids, all different. */
  lemma OnePerPureJoin(g: Graph, bound: nat, s: Snapshot)
    requires Inv(g, bound, s) && |g| == 7 && s.flags[6]
    requires g[0].ids != [] && g[1].ids != [] && g[2].ids != [] && g[3].ids != []
    requires g[4] == Node([], [0, 1]) && g[5] == Node([], [2, 3]) && g[6] == Node([], [4, 5])
    ensures s.joinIds.Keys == {4, 5, 6}
    ensures s.joinIds[4] != s.joinIds[5] && s.joinIds[4] != s.joinIds[6] && s.joinIds[5] != s.joinIds[6]
  {
    assert g[6].parents[0] == 4 && g[6].parents[1] == 5;
    assert s.flags[4] && s.flags[5];
    assert 4 in s.joinIds && 5 in s.joinIds && 6 in s.joinIds;
  }

  /** testContinuation_joinAndEnqueueWithOverlaps: A joined with B and A joined
      with C, the two joins joined; enqueueing enqueues every continuation,
      markEnqueued() is called on the shared A once, and the scheduler once. */
  method JoinAndEnqueueWithOverlaps(a: Id, b: Id, c: Id) returns (m: WorkManager, outcome: Outcome)
    ensures m.Valid() && |m.graph| == 6
    ensures outcome == Done
    ensures VerifyEnqueued(m.graph, m.enqueued[..], 5)
    ensures 0 in m.marked && forall k, k' :: 0 <= k < k' < |m.marked| ==> m.marked[k] != m.marked[k']
    ensures |m.scheduled| == 1
    ensures forall x :: x in m.records && m.records[x].state == Enqueued ==> x in m.scheduled[0]
  {
    var g, top, cyclic := Scenarios.SharedRoot(a, b, c);
    m := new WorkManager(g);
    outcome := m.EnqueueBlocking(top);
    assert VerifyEnqueued(m.graph, m.enqueued[..], 3);
  }

  /** The table of testContinuation_joinPassesAllOutput: two roots, joined. */
  method JoinOfRoots(a: Id, b: Id) returns (g: Graph, top: nat)
    ensures WellFormed(g) && |g| == 3
    ensures g[0] == Node([a], []) && g[1] == Node([b], []) && g[2] == Node([], [0, 1])
    ensures top == 2 && !HasCycles(g, top)
  {
    var rA := Begin([], [a]);
    var rB := Begin(rA.value.graph, [b]);
    var nA, nB := rA.value.node, rB.value.node;
    var g2 := rB.value.graph;
    assert g2 == [Node([a], []), Node([b], [])];
    ExtendPreserves(rA.value.graph, g2, nA);
    var cs := [nA, nB];
    forall k | 0 <= k < |cs| ensures !HasCycles(g2, cs[k]) {
      if k == 0 {} else {}
    }
    var joined := Join(g2, cs);
    g, top := joined.value.graph, joined.value.node;
  }

  /** The tags testContinuation_joinPassesAllOutput puts its values under. */
  const IntTag: string := "myint"
  const StringTag: string := "mystring"

  /** The output of the first work of testContinuation_joinPassesAllOutput. */
  function FirstOutput(intTag: string): Data {
    map[intTag := [IntValue(0)]]
  }

  /** The output of the second work of testContinuation_joinPassesAllOutput. */
  function SecondOutput(intTag: string, stringTag: string): Data {
    map[intTag := [IntValue(1)], stringTag := [StringValue("hello")]]
  }

  /** The first half of the set-up of testContinuation_joinPassesAllOutput:
      both works stored as succeeded, before anything is enqueued. */
  method StoredSucceeded(a: Id, b: Id) returns (m: WorkManager)
    requires a != b
    ensures fresh(m) && fresh(m.enqueued) && m.Valid()
    ensures |m.graph| == 3 && !HasCycles(m.graph, 2) && !m.enqueued[2]
    ensures m.graph[0] == Node([a], []) && m.graph[1] == Node([b], []) && m.graph[2] == Node([], [0, 1])
    ensures m.records.Keys == {a, b}
    ensures m.records[a] == m.records[b] == Record(Succeeded, {}, map[], false)
  {
    var g, top := JoinOfRoots(a, b);
    m := new WorkManager(g);
    assert m.graph[0].ids[0] == a && m.graph[1].ids[0] == b;
    m.InsertWorkSpec(a, Succeeded);
    assert m.records == map[a := Record(Succeeded, {}, map[], false)];
    m.InsertWorkSpec(b, Succeeded);
    assert m.records == map[a := Record(Succeeded, {}, map[], false), b := Record(Succeeded, {}, map[], false)];
  }

  /** The set-up of testContinuation_joinPassesAllOutput: both works stored as
      succeeded, then given their outputs, before anything is enqueued. */
  method StoredOutputs(a: Id, b: Id) returns (m: WorkManager)
    requires a != b
    ensures fresh(m) && fresh(m.enqueued) && m.Valid()
    ensures |m.graph| == 3 && !HasCycles(m.graph, 2) && !m.enqueued[2]
    ensures m.graph[0] == Node([a], []) && m.graph[1] == Node([b], []) && m.graph[2] == Node([], [0, 1])
    ensures m.records.Keys == {a, b}
    ensures m.records[a] == Record(Succeeded, {}, FirstOutput(IntTag), false)
    ensures m.records[b] == Record(Succeeded, {}, SecondOutput(IntTag, StringTag), false)
  {
    m := StoredSucceeded(a, b);
    ghost var r0 := m.records;
    m.SetOutput(a, FirstOutput(IntTag));
    ghost var r1 := m.records;
    assert r1 == r0[a := Record(Succeeded, {}, FirstOutput(IntTag), false)];
    m.SetOutput(b, SecondOutput(IntTag, StringTag));
    assert m.records == r1[b := Record(Succeeded, {}, SecondOutput(IntTag, StringTag), false)];
  }

  /** The enqueue half of testContinuation_joinPassesAllOutput: the join of
      the two stored works gets a join id, which getAllIds() lists beside the
      two works, and a join record waiting for both and ready to run. */
  method EnqueueStoredJoin(a: Id, b: Id) returns (m: WorkManager, outcome: Outcome, joinId: Id)
    requires a != b
    ensures fresh(m) && fresh(m.enqueued) && m.Valid() && |m.graph| == 3 && outcome == Done
    ensures m.AllIdsNow(2) == {a, b, joinId} && joinId != a && joinId != b
    ensures a in m.records && m.records[a].output == FirstOutput(IntTag)
    ensures b in m.records && m.records[b].output == SecondOutput(IntTag, StringTag)
    ensures joinId in m.records && m.records[joinId].join && m.records[joinId].state == Enqueued
    ensures m.records[joinId].prereqs == {a, b}
  {
    m := StoredOutputs(a, b);
    ghost var s0 := m.Snap();
    assert s0.records[a].output == FirstOutput(IntTag) && s0.records[b].output == SecondOutput(IntTag, StringTag);
    outcome := m.EnqueueBlocking(2);
    ghost var s1 := m.Snap();
    StoredJoinEnqueued(m.graph, m.idBound, s0, s1, a, b);
    joinId := m.joinIds[2];
    StoredJoinIds(m.graph, m.idBound, s1, a, b);
  }

  /** testContinuation_joinPassesAllOutput: running the join record of the
      join of two succeeded works succeeds; its output holds 0 and 1, once
      each and in either order, under "myint", and exactly ["hello"] under
      "mystring". */
  method JoinPassesAllOutput(a: Id, b: Id) returns (m: WorkManager, joinId: Id, ran: bool)
    requires a != b
    ensures m.Valid() && ran
    ensures joinId in m.records && joinId != a && joinId != b && m.records[joinId].state == Succeeded
    ensures multiset(Get(m.records[joinId].output, IntTag)) == multiset{IntValue(0), IntValue(1)}
    ensures Get(m.records[joinId].output, StringTag) == [StringValue("hello")]
  {
    var outcome;
    m, outcome, joinId := EnqueueStoredJoin(a, b);
    ghost var before := m.records;
    ghost var order;
    ran, order := m.RunJoin(joinId);
    assert IntTag != StringTag;
    OutputArrays(IntTag, StringTag);
    MergedOutputs(before, before[joinId].prereqs, order, a, b, IntTag, StringTag);
  }

  /** Enqueueing the join of two stored succeeded works inserts a join record
      of its own for it, waiting for exactly the two works and ready to run,
      and leaves the two works' records as they were. */
  lemma StoredJoinEnqueued(g: Graph, bound: nat, s0: Snapshot, s1: Snapshot, a: Id, b: Id)
    requires Inv(g, bound, s1) && Grew(s0, s1) && InsertedFresh(s0, s1)
    requires |g| == 3 && g[0] == Node([a], []) && g[1] == Node([b], []) && g[2] == Node([], [0, 1])
    requires s1.flags[2] && s0.records.Keys == {a, b}
    requires s0.records[a].state == Succeeded && s0.records[b].state == Succeeded
    ensures 2 in s1.joinIds
    ensures s1.joinIds[2] != a && s1.joinIds[2] != b && s1.joinIds[2] in s1.records
    ensures s1.records[s1.joinIds[2]].join && s1.records[s1.joinIds[2]].state == Enqueued
    ensures s1.records[s1.joinIds[2]].prereqs == {a, b}
    ensures a in s1.records && s1.records[a] == s0.records[a]
    ensures b in s1.records && s1.records[b] == s0.records[b]
  {
    JoinIdInserted(g, bound, s0, s1, a, b);
    JoinRecordReady(g, s0, s1, a, b);
  }

  /** Once the join of two roots is enqueued, getAllIds() of the join holds
      the two roots' works and the join's own join id, and nothing else. */
  lemma StoredJoinIds(g: Graph, bound: nat, s: Snapshot, a: Id, b: Id)
    requires Inv(g, bound, s) && |g| == 3 && s.flags[2]
    requires g[0] == Node([a], []) && g[1] == Node([b], []) && g[2] == Node([], [0, 1])
    ensures 2 in s.joinIds && KnownIds(g, s.joinIds, 2) == {a, b, s.joinIds[2]}
  {
    assert Reach(g, 0) == {0} && Reach(g, 1) == {1};
    assert Reach(g, 2) == {0, 1, 2};
    assert AllIds(g, 0) == {a} && AllIds(g, 1) == {b};
    assert AllIds(g, 2) == {a, b};
    assert 0 !in s.joinIds && 1 !in s.joinIds && 2 in s.joinIds;
  }

  /** After enqueueing the join of two stored succeeded works, the join's
      record waits for exactly the two works and is ready to run. */
  lemma JoinRecordReady(g: Graph, s0: Snapshot, s1: Snapshot, a: Id, b: Id)
    requires WellFormed(g) && |g| == 3 && g[0] == Node([a], []) && g[1] == Node([b], []) && g[2] == Node([], [0, 1])
    requires Grew(s0, s1)
    requires a in s0.records && s0.records[a].state == Succeeded
    requires b in s0.records && s0.records[b].state == Succeeded
    requires 2 in s1.joinIds && s1.joinIds[2] in s1.records
    requires s1.records[s1.joinIds[2]].prereqs == Prereqs(g, s1.joinIds, 2)
    requires s1.records[s1.joinIds[2]].state == InitialState(s1.records, s1.records[s1.joinIds[2]].prereqs)
    ensures s1.records[s1.joinIds[2]].state == Enqueued
    ensures s1.records[s1.joinIds[2]].prereqs == {a, b}
    ensures s1.records[a] == s0.records[a] && s1.records[b] == s0.records[b]
  {
    PrereqsOfJoin(g, s1.joinIds, a, b);
    assert a in SucceededIds(s1.records) && b in SucceededIds(s1.records);
  }

  /** The join id of the enqueued join is a new record, inserted for the join:
      a join record waiting for the fronts of the join's parents. */
  lemma JoinIdInserted(g: Graph, bound: nat, s0: Snapshot, s1: Snapshot, a: Id, b: Id)
    requires Inv(g, bound, s1) && InsertedFresh(s0, s1)
    requires |g| == 3 && g[0] == Node([a], []) && g[1] == Node([b], []) && g[2] == Node([], [0, 1])
    requires s1.flags[2] && s0.records.Keys == {a, b}
    ensures 2 in s1.joinIds
    ensures s1.joinIds[2] != a && s1.joinIds[2] != b && s1.joinIds[2] in s1.records
    ensures s1.records[s1.joinIds[2]].join
    ensures s1.records[s1.joinIds[2]].prereqs == Prereqs(g, s1.joinIds, 2)
    ensures s1.records[s1.joinIds[2]].state == InitialState(s1.records, s1.records[s1.joinIds[2]].prereqs)
  {
    var x := s1.joinIds[2];
    assert g[0].ids[0] == a && g[1].ids[0] == b;
    assert x in Front(g, s1.joinIds, 2);
    assert x !in s0.records;
    var o := s1.origin[x];
    assert x in Front(g, s1.joinIds, o);
    assert bound <= x;
    assert a < bound && b < bound;
  }

  /** The join of the two roots waits for their two works. */
  lemma PrereqsOfJoin(g: Graph, joinIds: map<nat, Id>, a: Id, b: Id)
    requires |g| == 3 && g[0] == Node([a], []) && g[1] == Node([b], []) && g[2] == Node([], [0, 1])
    requires WellFormed(g)
    ensures Prereqs(g, joinIds, 2) == {a, b}
  {
    var pre := Prereqs(g, joinIds, 2);
    assert Front(g, joinIds, 0) == [a] && Front(g, joinIds, 1) == [b];
    assert a in Front(g, joinIds, g[2].parents[0]);
    assert b in Front(g, joinIds, g[2].parents[1]);
    forall y | y in pre ensures y == a || y == b {
      var k :| 0 <= k < |g[2].parents| && y in Front(g, joinIds, g[2].parents[k]);
      if k == 0 {} else {}
    }
  }

  /** An enumeration of two distinct ids without repeats is one of their two
      orders. */
  lemma OrderOfPair(order: seq<Id>, pre: set<Id>, a: Id, b: Id)
    requires a != b && pre == {a, b} && Distinct(order) && forall y :: y in order <==> y in pre
    ensures order == [a, b] || order == [b, a]
  {
    forall k | 0 <= k < |order| ensures order[k] == a || order[k] == b {
      assert order[k] in order;
    }
    assert a in pre && b in pre;
    var i :| 0 <= i < |order| && order[i] == a;
    var j :| 0 <= j < |order| && order[j] == b;
    if |order| > 2 {
      FirstThree(order);
      assert false;
    }
  }

  /** The first three entries of a sequence that has them. */
  lemma FirstThree(order: seq<Id>)
    requires |order| > 2
    ensures order[0] in order && order[1] in order && order[2] in order
  {
  }

  /** Merging two outputs appends, under each key, the second's array to the
      first's. */
  lemma MergePair(d1: Data, d2: Data, key: string)
    ensures Get(Merge([d1, d2]), key) == Get(d1, key) + Get(d2, key)
  {
    MergeIsColumn([d1, d2], key);
    assert [d1, d2][1..] == [d2] && [d2][1..] == [];
    assert Column([d2], key) == Get(d2, key);
  }

  /** The arrays of the two outputs of testContinuation_joinPassesAllOutput:
      one integer each under it, and "hello" under st in the second only. */
  lemma OutputArrays(it: string, st: string)
    requires it != st
    ensures Get(FirstOutput(it), it) == [IntValue(0)] && Get(SecondOutput(it, st), it) == [IntValue(1)]
    ensures Get(FirstOutput(it), st) == [] && Get(SecondOutput(it, st), st) == [StringValue("hello")]
  {
  }

  /** Two outputs with the arrays of testContinuation_joinPassesAllOutput,
      merged first to second: the integer array holds 0 and 1 once each, and
      the string array is exactly "hello". */
  lemma MergedInOrder(d1: Data, d2: Data, it: string, st: string)
    requires Get(d1, it) == [IntValue(0)] && Get(d2, it) == [IntValue(1)]
    requires Get(d1, st) == [] && Get(d2, st) == [StringValue("hello")]
    ensures multiset(Get(Merge([d1, d2]), it)) == multiset{IntValue(0), IntValue(1)}
    ensures Get(Merge([d1, d2]), st) == [StringValue("hello")]
  {
    MergePair(d1, d2, it);
    MergePair(d1, d2, st);
  }

  /** The same two outputs merged second to first: the same arrays, the
      integers in the other order. */
  lemma MergedInReverse(d1: Data, d2: Data, it: string, st: string)
    requires Get(d1, it) == [IntValue(0)] && Get(d2, it) == [IntValue(1)]
    requires Get(d1, st) == [] && Get(d2, st) == [StringValue("hello")]
    ensures multiset(Get(Merge([d2, d1]), it)) == multiset{IntValue(0), IntValue(1)}
    ensures Get(Merge([d2, d1]), st) == [StringValue("hello")]
  {
    MergePair(d2, d1, it);
    MergePair(d2, d1, st);
  }

  /** The output of the join of testContinuation_joinPassesAllOutput, in
      either enumeration order: the integer array holds 0 and 1 once each,
      and the string array is exactly "hello". */
  lemma MergedOutputs(records: map<Id, Record>, pre: set<Id>, order: seq<Id>, a: Id, b: Id, it: string, st: string)
    requires a != b && a in records && b in records
    requires Get(records[a].output, it) == [IntValue(0)] && Get(records[b].output, it) == [IntValue(1)]
    requires Get(records[a].output, st) == [] && Get(records[b].output, st) == [StringValue("hello")]
    requires pre == {a, b} && Distinct(order) && forall y :: y in order <==> y in pre
    ensures forall k :: 0 <= k < |order| ==> order[k] in records
    ensures multiset(Get(Merge(Outputs(records, order)), it)) == multiset{IntValue(0), IntValue(1)}
    ensures Get(Merge(Outputs(records, order)), st) == [StringValue("hello")]
  {
    OrderOfPair(order, pre, a, b);
    var d1, d2 := records[a].output, records[b].output;
    if order == [a, b] {
      assert Outputs(records, order) == [d1, d2];
      MergedInOrder(d1, d2, it, st);
    } else {
      assert Outputs(records, order) == [d2, d1];
      MergedInReverse(d1, d2, it, st);
    }
  }
}
