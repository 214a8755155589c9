/** The work manager of one continuation table: enqueueBlocking() with its
    idempotence and its single scheduler hand-off, the store operations the
    join-output test drives directly, and the run of a join record, which
    merges its prerequisites' outputs. */
module Manager {
  import opened Continuations
  import opened Merging
  import opened Store

  /** How a call of enqueueBlocking() ended. */
  datatype Outcome = Done | AlreadyEnqueued | Cyclic

  /** The outputs of the records order names, in that order. */
  function Outputs(records: map<Id, Record>, order: seq<Id>): (r: seq<Data>)
    requires forall k :: 0 <= k < |order| ==> order[k] in records
    ensures |r| == |order|
    ensures forall k :: 0 <= k < |order| ==> r[k] == records[order[k]].output
  {
    if order == [] then []
    else Outputs(records, order[..|order| - 1]) + [records[order[|order| - 1]].output]
  }

  lemma OutputsSnoc(records: map<Id, Record>, order: seq<Id>, y: Id)
    requires forall k :: 0 <= k < |order| ==> order[k] in records
    requires y in records
    ensures Merge(Outputs(records, order + [y])) == Combine(Merge(Outputs(records, order)), records[y].output)
  {
    var outs := Outputs(records, order + [y]);
    assert (order + [y])[..|order|] == order;
    assert outs[..|outs| - 1] == Outputs(records, order);
  }

  /** No id occurs twice in order. */
  ghost predicate Distinct(order: seq<Id>) {
    forall k, k' :: 0 <= k < k' < |order| ==> order[k] != order[k']
  }

  lemma DistinctSnoc(order: seq<Id>, y: Id)
    requires Distinct(order) && y !in order
    ensures Distinct(order + [y])
  {
  }

  /** The input of a join: the outputs of its prerequisites pre, merged in
      the order the store enumerates them (order). A key is in the result
      exactly when some prerequisite's output has it, and a value is under a
      key exactly when some prerequisite produced it under that key. */
  method MergeInputs(records: map<Id, Record>, pre: set<Id>) returns (merged: Data, ghost order: seq<Id>)
    requires pre <= records.Keys
    ensures forall y :: y in order <==> y in pre
    ensures Distinct(order)
    ensures forall k :: 0 <= k < |order| ==> order[k] in records
    ensures merged == Merge(Outputs(records, order))
    ensures forall key :: key in merged <==> exists y :: y in pre && key in records[y].output
    ensures forall key, v :: v in Get(merged, key) <==>
      exists y :: y in pre && key in records[y].output && v in records[y].output[key]
  {
    order := [];
    var pending := pre;
    merged := map[];
    while pending != {}
      invariant pending <= pre
      invariant forall y :: y in order <==> y in pre && y !in pending
      invariant Distinct(order)
      invariant forall k :: 0 <= k < |order| ==> order[k] in records
      invariant merged == Merge(Outputs(records, order))
      decreases |pending|
    {
      var y :| y in pending;
      OutputsSnoc(records, order, y);
      merged := Combine(merged, records[y].output);
      DistinctSnoc(order, y);
      order := order + [y];
      pending := pending - {y};
    }
    InputKeys(records, pre, order);
    InputValues(records, pre, order);
  }

  /** The keys of the merged outputs of an enumeration of pre. */
  lemma InputKeys(records: map<Id, Record>, pre: set<Id>, order: seq<Id>)
    requires forall k :: 0 <= k < |order| ==> order[k] in records
    requires forall y :: y in order <==> y in pre
    ensures forall key :: key in Merge(Outputs(records, order)) <==>
      exists y :: y in pre && key in records[y].output
  {
    var outs := Outputs(records, order);
    forall key ensures key in Merge(outs) <==> exists y :: y in pre && key in records[y].output {
      MergeKeys(outs, key);
      if key in Merge(outs) {
        var k :| 0 <= k < |outs| && key in outs[k];
        assert order[k] in pre;
      }
      if exists y :: y in pre && key in records[y].output {
        var y :| y in pre && key in records[y].output;
        var k :| 0 <= k < |order| && order[k] == y;
        assert key in outs[k];
      }
    }
  }

  /** The values of the merged outputs of an enumeration of pre. */
  lemma InputValues(records: map<Id, Record>, pre: set<Id>, order: seq<Id>)
    requires forall k :: 0 <= k < |order| ==> order[k] in records
    requires forall y :: y in order <==> y in pre
    ensures forall key, v :: v in Get(Merge(Outputs(records, order)), key) <==>
      exists y :: y in pre && key in records[y].output && v in records[y].output[key]
  {
    var outs := Outputs(records, order);
    forall key, v ensures v in Get(Merge(outs), key) <==>
      exists y :: y in pre && key in records[y].output && v in records[y].output[key]
    {
      MergeMembers(outs, key, v);
      if v in Get(Merge(outs), key) {
        var k :| 0 <= k < |outs| && key in outs[k] && v in outs[k][key];
        assert order[k] in pre;
      }
      if exists y :: y in pre && key in records[y].output && v in records[y].output[key] {
        var y :| y in pre && key in records[y].output && v in records[y].output[key];
        var k :| 0 <= k < |order| && order[k] == y;
        assert key in outs[k] && v in outs[k][key];
      }
    }
  }

  class WorkManager {
    /** The continuation table the client built. */
    const graph: Graph
    /** Every work id of the table is below idBound; join ids are taken from it on. */
    const idBound: nat
    /** The isEnqueued() flag of each continuation. */
    const enqueued: array<bool>
    /** The id of the join record of each enqueued pure join. */
    var joinIds: map<nat, Id>
    /** The work store. */
    var records: map<Id, Record>
    /** The next id free for a join record. */
    var nextId: nat
    /** The batches handed to the scheduler, one per call, oldest first. */
    var scheduled: seq<seq<Id>>
    /** Which continuation's enqueue inserted each record. */
    ghost var origin: map<Id, nat>
    /** The continuations markEnqueued() was called on, in call order. */
    ghost var marked: seq<nat>

    ghost function Snap(): Snapshot
      reads this, enqueued
    {
      Snapshot(enqueued[..], joinIds, records, nextId, origin, marked)
    }

    ghost predicate Valid()
      reads this, enqueued
    {
      enqueued.Length == |graph| && Inv(graph, idBound, Snap())
    }

    /** A manager over table g with nothing enqueued and an empty store. */
    constructor (g: Graph)
      requires WellFormed(g)
      ensures Valid() && graph == g && fresh(enqueued)
      ensures forall j :: 0 <= j < |g| ==> !enqueued[j]
      ensures records == map[] && joinIds == map[] && scheduled == [] && marked == []
    {
      graph := g;
      idBound := IdBound(g);
      enqueued := new bool[|g|](_ => false);
      joinIds := map[];
      records := map[];
      nextId := IdBound(g);
      scheduled := [];
      origin := map[];
      marked := [];
    }

    /** isEnqueued() of continuation i. */
    function IsEnqueued(i: nat): (r: bool)
      requires Valid() && i < |graph|
      reads this, enqueued
      ensures r ==> forall j :: j in Reach(graph, i) ==> enqueued[j]
    {
      if enqueued[i] then
        forall j | j in Reach(graph, i) ensures enqueued[j] {
          ClosedReach(graph, enqueued[..], i, j);
        }
        true
      else false
    }

    /** getIds() of continuation i: its own work ids, or the join id once a
        pure join has been enqueued. */
    function Ids(i: nat): (r: seq<Id>)
      requires Valid() && i < |graph|
      reads this, enqueued
      ensures graph[i].ids != [] ==> r == graph[i].ids
      ensures graph[i].ids == [] ==> |r| == (if enqueued[i] then 1 else 0)
      ensures enqueued[i] ==> forall x :: x in r ==> x in records
    {
      Front(graph, joinIds, i)
    }

    /** getAllIds() of continuation i: the work ids of i and its ancestors,
        together with the join ids of the enqueued pure joins among them. */
    function AllIdsNow(i: nat): (r: set<Id>)
      requires Valid() && i < |graph|
      reads this, enqueued
      ensures AllIds(graph, i) <= r
      ensures forall x :: x in r && x !in AllIds(graph, i) ==> idBound <= x
      ensures r == set j, x | j in Reach(graph, i) && x in Front(graph, joinIds, j) :: x
    {
      KnownIdsAreReachedFronts(graph, joinIds, i);
      KnownIds(graph, joinIds, i)
    }

    /** The store's insertWorkSpec: a stand-alone record for work id x in the
        given state, unless x is already stored. */
    method InsertWorkSpec(x: Id, state: State)
      requires Valid() && x < idBound
      modifies this`records
      ensures Valid()
      ensures old(x in records) ==> records == old(records)
      ensures !old(x in records) ==> records == old(records)[x := Record(state, {}, map[], false)]
    {
      if x !in records {
        InsertPreserves(graph, idBound, Snap(), x, Record(state, {}, map[], false));
        records := records[x := Record(state, {}, map[], false)];
      }
    }

    /** The store's setOutput: replaces the output of stored record x. */
    method SetOutput(x: Id, output: Data)
      requires Valid() && x in records
      modifies this`records
      ensures Valid()
      ensures records == old(records)[x := old(records[x]).(output := output)]
    {
      UpdatePreserves(graph, idBound, Snap(), x, records[x].(output := output));
      records := records[x := records[x].(output := output)];
    }

    /** The table is well formed and has one flag per continuation; all the
        enqueue steps need. */
    ghost predicate Shaped()
      reads this
    {
      WellFormed(graph) && enqueued.Length == |graph|
    }

    /** enqueueContinuation of continuation i: persist its records, then
        markEnqueued(). */
    method EnqueueOwn(i: nat)
      requires Shaped() && i < |graph|
      modifies this`records, this`joinIds, this`nextId, this`origin, this`marked, enqueued
      ensures Snap() == Step(graph, old(Snap()), i)
    {
      ghost var s1 := Step(graph, Snap(), i);
      var pre := Prereqs(graph, joinIds, i);
      var st := InitialState(records, pre);
      if graph[i].ids == [] {
        var jid := nextId;
        records := records[jid := Record(st, pre, map[], true)];
        origin := origin[jid := i];
        joinIds := joinIds[i := jid];
        nextId := nextId + 1;
      } else {
        var added := Elems(graph[i].ids) - records.Keys;
        records := records + map x | x in added :: Record(st, pre, map[], false);
        origin := origin + map x | x in added :: i;
      }
      enqueued[i] := true;
      marked := marked + [i];
      assert enqueued[..] == s1.flags;
    }

    /** processContinuation of continuation i: every parent not enqueued yet
        is processed first, in parent order, then i itself is enqueued. */
    method EnqueueNode(i: nat)
      requires Shaped() && i < |graph|
      modifies this`records, this`joinIds, this`nextId, this`origin, this`marked, enqueued
      ensures Snap() == Process(graph, old(Snap()), i)
      decreases i
    {
      ghost var s0 := Snap();
      var k := 0;
      while k < |graph[i].parents|
        invariant k <= |graph[i].parents|
        invariant Snap() == ProcessParents(graph, s0, i, k)
      {
        var p := graph[i].parents[k];
        if !enqueued[p] {
          EnqueueNode(p);
        }
        k := k + 1;
      }
      EnqueueOwn(i);
    }

    /** getEligibleWorkForScheduling: every stored record in state Enqueued, once. */
    method EligibleForScheduling() returns (batch: seq<Id>)
      ensures forall x :: x in batch <==> x in records && records[x].state == Enqueued
      ensures forall k, k' :: 0 <= k < k' < |batch| ==> batch[k] != batch[k']
    {
      batch := [];
      var pending := records.Keys;
      while pending != {}
        invariant pending <= records.Keys
        invariant forall x :: x in batch <==> x in records && x !in pending && records[x].state == Enqueued
        invariant forall k, k' :: 0 <= k < k' < |batch| ==> batch[k] != batch[k']
        decreases |pending|
      {
        var x :| x in pending;
        if records[x].state == Enqueued {
          batch := batch + [x];
        }
        pending := pending - {x};
      }
    }

    /** enqueueBlocking() of continuation i: nothing happens when i is already
        enqueued or its graph has a cycle; otherwise i and every ancestor not
        yet enqueued are persisted and marked, and the scheduler is called once
        with every record eligible for scheduling. */
    method EnqueueBlocking(i: nat) returns (outcome: Outcome)
      requires Valid() && i < |graph|
      modifies this`records, this`joinIds, this`nextId, this`origin, this`marked, enqueued, this`scheduled
      ensures Valid()
      ensures outcome == AlreadyEnqueued <==> old(enqueued[i])
      ensures outcome == Cyclic <==> !old(enqueued[i]) && HasCycles(graph, i)
      ensures outcome != Done ==> Snap() == old(Snap()) && scheduled == old(scheduled)
      ensures outcome == Done ==>
        && (forall j :: 0 <= j < |graph| ==> enqueued[j] == (old(enqueued[j]) || j in Reach(graph, i)))
        && VerifyEnqueued(graph, enqueued[..], i)
        && Grew(old(Snap()), Snap()) && InsertedFresh(old(Snap()), Snap())
        && |scheduled| == |old(scheduled)| + 1 && scheduled[..|old(scheduled)|] == old(scheduled)
        && (forall x :: x in scheduled[|scheduled| - 1] <==> x in records && records[x].state == Enqueued)
    {
      ghost var s0 := Snap();
      if enqueued[i] {
        return AlreadyEnqueued;
      }
      var cyclic := DetectCycles(graph, i);
      assert Snap() == s0;
      if cyclic {
        return Cyclic;
      }
      EnqueueAcyclic(i);
      ghost var s1 := Snap();
      var batch := EligibleForScheduling();
      scheduled := scheduled + [batch];
      outcome := Done;
      assert Snap() == s1;
    }

    /** The part of enqueueBlocking() that persists and marks an acyclic
        continuation i that is not enqueued yet, ancestors first. */
    method EnqueueAcyclic(i: nat)
      requires Valid() && i < |graph| && !enqueued[i]
      modifies this`records, this`joinIds, this`nextId, this`origin, this`marked, enqueued
      ensures Valid()
      ensures Snap() == Process(graph, old(Snap()), i)
      ensures forall j :: 0 <= j < |graph| ==> enqueued[j] == (old(enqueued[j]) || j in Reach(graph, i))
      ensures VerifyEnqueued(graph, enqueued[..], i)
      ensures Grew(old(Snap()), Snap()) && InsertedFresh(old(Snap()), Snap())
    {
      ghost var s0 := Snap();
      ProcessPreserves(graph, idBound, s0, i);
      ProcessGrows(graph, idBound, s0, i);
      ProcessFlags(graph, s0, i);
      EnqueueNode(i);
      ghost var s1 := Snap();
      assert s1 == Process(graph, s0, i);
      VerifyEnqueuedIffReachFlagged(graph, s1.flags, i);
    }

    /** The run of join record x: when x is an enqueued join record, its output
        becomes the merge of its prerequisites' outputs, taken in the order the
        store enumerates them (order), and it succeeds. */
    method RunJoin(x: Id) returns (ran: bool, ghost order: seq<Id>)
      requires Valid()
      modifies this`records
      ensures Valid()
      ensures ran <==> x in old(records) && old(records[x]).join && old(records[x]).state == Enqueued
      ensures !ran ==> records == old(records)
      ensures ran ==>
        && (forall y :: y in order <==> y in old(records[x]).prereqs)
        && Distinct(order)
        && (forall k :: 0 <= k < |order| ==> order[k] in old(records))
        && records == old(records)[x := old(records[x]).(state := Succeeded,
                                                          output := Merge(Outputs(old(records), order)))]
    {
      order := [];
      if x !in records || !records[x].join || records[x].state != Enqueued {
        return false, order;
      }
      var pre := records[x].prereqs;
      var merged;
      merged, order := MergeInputs(records, pre);
      ghost var s := Snap();
      var done := records[x].(state := Succeeded, output := merged);
      UpdatePreserves(graph, idBound, s, x, done);
      records := records[x := done];
      assert Snap() == s.(records := s.records[x := done]);
      ran := true;
    }
  }
}
