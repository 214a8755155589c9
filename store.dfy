/** The persisted side of enqueueing, over plain values: work records, the
    synthetic ids of pure joins, the invariant that ties them to the enqueued
    flags of the continuation table, and the step that enqueues one
    continuation whose parents are already enqueued. */
module Store {
  import opened Continuations
  import opened Merging

  /** Lifecycle state of a persisted work record. */
  datatype State = Enqueued | Running | Succeeded | Failed | Blocked | Cancelled

  /** A persisted work record: its state, the ids it waits for, its output, and
      whether it is the synthetic record of a pure join. */
  datatype Record = Record(state: State, prereqs: set<Id>, output: Data, join: bool)

  /** The mutable state of a work manager over one continuation table: the
      enqueued flag of each continuation, the join id given to each enqueued
      pure join, the store of records, the next free id, and two logs used
      only to state properties: which continuation inserted each record, and
      the continuations markEnqueued() was called on. */
  datatype Snapshot = Snapshot(
    flags: seq<bool>,
    joinIds: map<nat, Id>,
    records: map<Id, Record>,
    nextId: nat,
    origin: map<Id, nat>,
    marked: seq<nat>)

  /** The ids a continuation currently stands for: its own work, or, for a pure
      join that has been enqueued, the id of its join record. */
  function Front(g: Graph, joinIds: map<nat, Id>, j: nat): seq<Id>
    requires j < |g|
  {
    if g[j].ids != [] then g[j].ids
    else if j in joinIds then [joinIds[j]]
    else []
  }

  /** The ids of continuation i and its ancestors as the store knows them:
      their work ids and the join ids of the enqueued pure joins among them. */
  function KnownIds(g: Graph, joinIds: map<nat, Id>, i: nat): set<Id>
    requires WellFormed(g) && i < |g|
  {
    AllIds(g, i) + set j | j in Reach(g, i) && j in joinIds :: joinIds[j]
  }

  /** The ids of the fronts of every continuation that i reaches. */
  function ReachedFronts(g: Graph, joinIds: map<nat, Id>, i: nat): set<Id>
    requires WellFormed(g) && i < |g|
  {
    set j, x | j in Reach(g, i) && x in Front(g, joinIds, j) :: x
  }

  /** When only pure joins hold join ids, the known ids of i are the union of
      the fronts (getIds()) of the continuations it reaches. */
  lemma KnownIdsAreReachedFronts(g: Graph, joinIds: map<nat, Id>, i: nat)
    requires WellFormed(g) && i < |g|
    requires forall j :: j in joinIds ==> j < |g| && g[j].ids == []
    ensures KnownIds(g, joinIds, i) == ReachedFronts(g, joinIds, i)
  {
    AllIdsIsReachableIds(g, i);
    forall x | x in KnownIds(g, joinIds, i) ensures x in ReachedFronts(g, joinIds, i) {
      if x in IdsOf(g, Reach(g, i)) {
        var j :| j in Reach(g, i) && 0 <= j < |g| && x in g[j].ids;
        assert x in Front(g, joinIds, j);
      } else {
        var j :| j in Reach(g, i) && j in joinIds && joinIds[j] == x;
        assert x in Front(g, joinIds, j);
      }
    }
    forall x | x in ReachedFronts(g, joinIds, i) ensures x in KnownIds(g, joinIds, i) {
      var j :| j in Reach(g, i) && x in Front(g, joinIds, j);
      if g[j].ids != [] {
        assert x in IdsOf(g, Reach(g, i));
      }
    }
  }

  /** The prerequisites of the records continuation j introduces: the fronts of
      its direct parents, not their whole ancestry. */
  function Prereqs(g: Graph, joinIds: map<nat, Id>, j: nat): set<Id>
    requires WellFormed(g) && j < |g|
  {
    set m, x | 0 <= m < |g[j].parents| && x in Front(g, joinIds, g[j].parents[m]) :: x
  }

  /** A new record may run at once when every prerequisite has succeeded, and
      is blocked otherwise. */
  function InitialState(records: map<Id, Record>, pre: set<Id>): State {
    if pre <= SucceededIds(records) then Enqueued else Blocked
  }

  /** The ids of the stored records that have succeeded. */
  function SucceededIds(records: map<Id, Record>): set<Id> {
    set y | y in records && records[y].state == Succeeded
  }

  /** Every work id of the table is below bound. */
  predicate IdsBelow(g: Graph, bound: nat) {
    forall j, k :: 0 <= j < |g| && 0 <= k < |g[j].ids| ==> g[j].ids[k] < bound
  }

  /** A bound above every work id of the table; ids from it on are free for
      join records. */
  function IdBound(g: Graph): (r: nat)
    ensures IdsBelow(g, r)
  {
    if g == [] then 0
    else
      var rest := IdBound(g[..|g| - 1]);
      var last := SeqBound(g[|g| - 1].ids);
      if rest < last then last else rest
  }

  function SeqBound(s: seq<Id>): (r: nat)
    ensures forall k :: 0 <= k < |s| ==> s[k] < r
  {
    if s == [] then 0
    else
      var rest := SeqBound(s[..|s| - 1]);
      if rest < s[|s| - 1] + 1 then s[|s| - 1] + 1 else rest
  }

  // ---------------------------------------------------------------------------
  // The invariant

  /** The parents of an enqueued continuation are enqueued, and each enqueued
      pure join has a join id of its own, at or above bound. */
  ghost predicate FlagsInv(g: Graph, bound: nat, s: Snapshot)
    requires WellFormed(g) && |s.flags| == |g|
  {
    && Closed(g, s.flags)
    && (forall j :: j in s.joinIds <==> 0 <= j < |g| && s.flags[j] && g[j].ids == [])
    && (forall j :: j in s.joinIds ==> bound <= s.joinIds[j])
    && (forall j, j' :: j in s.joinIds && j' in s.joinIds && j != j' ==> s.joinIds[j] != s.joinIds[j'])
  }

  /** What an enqueued continuation stands for is persisted, every
      prerequisite of a record is a record, and ids from nextId on are free. */
  ghost predicate StoreInv(g: Graph, bound: nat, s: Snapshot)
    requires |s.flags| == |g|
  {
    && bound <= s.nextId
    && (forall j, x :: 0 <= j < |g| && s.flags[j] && x in Front(g, s.joinIds, j) ==> x in s.records)
    && (forall x :: x in s.records ==> s.records[x].prereqs <= s.records.Keys)
    && (forall x :: x in s.records ==> x < s.nextId)
  }

  /** Each record an enqueue inserted stands for its continuation and depends
      on the fronts of that continuation's parents. */
  ghost predicate OriginInv(g: Graph, s: Snapshot)
    requires WellFormed(g) && |s.flags| == |g|
  {
    forall x :: x in s.origin ==>
      && x in s.records && s.origin[x] < |g| && s.flags[s.origin[x]]
      && x in Front(g, s.joinIds, s.origin[x])
      && s.records[x].prereqs == Prereqs(g, s.joinIds, s.origin[x])
      && s.records[x].join == (g[s.origin[x]].ids == [])
  }

  /** markEnqueued() was called once on each enqueued continuation and on no other. */
  ghost predicate MarksInv(g: Graph, s: Snapshot)
    requires |s.flags| == |g|
  {
    && (forall k :: 0 <= k < |s.marked| ==> s.marked[k] < |g| && s.flags[s.marked[k]])
    && (forall j :: 0 <= j < |g| && s.flags[j] ==> j in s.marked)
    && (forall k, k' :: 0 <= k < k' < |s.marked| ==> s.marked[k] != s.marked[k'])
  }

  ghost predicate Inv(g: Graph, bound: nat, s: Snapshot) {
    && WellFormed(g) && |s.flags| == |g| && IdsBelow(g, bound)
    && FlagsInv(g, bound, s) && StoreInv(g, bound, s) && OriginInv(g, s) && MarksInv(g, s)
  }

  /** Nothing in s0 changed in s1: flags were only set, entries only added,
      calls only appended. */
  ghost predicate Grew(s0: Snapshot, s1: Snapshot) {
    && |s1.flags| == |s0.flags|
    && (forall j :: 0 <= j < |s0.flags| && s0.flags[j] ==> s1.flags[j])
    && (forall j :: j in s0.joinIds ==> j in s1.joinIds && s1.joinIds[j] == s0.joinIds[j])
    && (forall x :: x in s0.records ==> x in s1.records && s1.records[x] == s0.records[x])
    && (forall x :: x in s0.origin ==> x in s1.origin && s1.origin[x] == s0.origin[x])
    && s0.marked <= s1.marked
    && s0.nextId <= s1.nextId
  }

  /** Every record of s1 that s0 lacks was inserted for a continuation not
      enqueued in s0, has an empty output, and may run exactly when all its
      prerequisites have succeeded. */
  ghost predicate InsertedFresh(s0: Snapshot, s1: Snapshot) {
    forall x :: x in s1.records && x !in s0.records ==>
      && x in s1.origin && s1.origin[x] < |s0.flags| && !s0.flags[s1.origin[x]]
      && s1.records[x].output == map[]
      && s1.records[x].state == InitialState(s1.records, s1.records[x].prereqs)
  }

  lemma GrewTrans(s0: Snapshot, s1: Snapshot, s2: Snapshot)
    requires Grew(s0, s1) && Grew(s1, s2)
    ensures Grew(s0, s2)
  {
  }

  /** Two successive enqueue steps insert only fresh records between them. */
  lemma InsertedFreshTrans(s0: Snapshot, s1: Snapshot, s2: Snapshot)
    requires forall x :: x in s1.records ==> s1.records[x].prereqs <= s1.records.Keys
    requires Grew(s0, s1) && Grew(s1, s2)
    requires InsertedFresh(s0, s1) && InsertedFresh(s1, s2)
    ensures InsertedFresh(s0, s2)
  {
    forall x | x in s2.records && x !in s0.records
      ensures x in s2.origin && s2.origin[x] < |s0.flags| && !s0.flags[s2.origin[x]]
      ensures s2.records[x].output == map[]
      ensures s2.records[x].state == InitialState(s2.records, s2.records[x].prereqs)
    {
      if x in s1.records {
        var pre := s1.records[x].prereqs;
        assert pre <= s1.records.Keys;
        assert InitialState(s2.records, pre) == InitialState(s1.records, pre);
      } else {
        var o := s2.origin[x];
        assert !s1.flags[o];
      }
    }
  }

  // ---------------------------------------------------------------------------
  // One enqueue step: enqueueContinuation

  /** Enqueue continuation i, whose parents are already enqueued: a pure join
      gets one join record under a fresh id; otherwise each own id not yet in
      the store gets a record. Either way the records depend on the fronts of
      i's parents, and i is flagged and marked. */
  function Step(g: Graph, s: Snapshot, i: nat): (r: Snapshot)
    requires WellFormed(g) && |s.flags| == |g| && i < |g|
    ensures r.flags == s.flags[i := true]
  {
    var pre := Prereqs(g, s.joinIds, i);
    var st := InitialState(s.records, pre);
    if g[i].ids == [] then
      var jid := s.nextId;
      s.(flags := s.flags[i := true],
         joinIds := s.joinIds[i := jid],
         records := s.records[jid := Record(st, pre, map[], true)],
         nextId := jid + 1,
         origin := s.origin[jid := i],
         marked := s.marked + [i])
    else
      var added := Elems(g[i].ids) - s.records.Keys;
      s.(flags := s.flags[i := true],
         records := s.records + map x | x in added :: Record(st, pre, map[], false),
         origin := s.origin + map x | x in added :: i,
         marked := s.marked + [i])
  }

  /** The prerequisites of continuation i are persisted once its parents are enqueued. */
  lemma PrereqsPersisted(g: Graph, bound: nat, s: Snapshot, i: nat)
    requires WellFormed(g) && |s.flags| == |g| && StoreInv(g, bound, s) && i < |g|
    requires forall m :: 0 <= m < |g[i].parents| ==> s.flags[g[i].parents[m]]
    ensures Prereqs(g, s.joinIds, i) <= s.records.Keys
  {
  }

  /** Setting the join id of a continuation other than j's parents leaves j's
      prerequisites unchanged. */
  lemma PrereqsUnchanged(g: Graph, s: Snapshot, i: nat, jid: Id, j: nat)
    requires WellFormed(g) && |s.flags| == |g| && i < |g| && j < |g|
    requires forall m :: 0 <= m < |g[j].parents| ==> g[j].parents[m] != i
    ensures Prereqs(g, s.joinIds[i := jid], j) == Prereqs(g, s.joinIds, j)
  {
    forall m | 0 <= m < |g[j].parents|
      ensures Front(g, s.joinIds[i := jid], g[j].parents[m]) == Front(g, s.joinIds, g[j].parents[m])
    {
    }
  }

  lemma StepJoinFlags(g: Graph, bound: nat, s: Snapshot, i: nat)
    requires WellFormed(g) && |s.flags| == |g| && FlagsInv(g, bound, s) && StoreInv(g, bound, s) && i < |g| && !s.flags[i] && g[i].ids == []
    requires forall m :: 0 <= m < |g[i].parents| ==> s.flags[g[i].parents[m]]
    ensures FlagsInv(g, bound, Step(g, s, i))
  {
    var s' := Step(g, s, i);
    forall j | j in s.joinIds ensures s.joinIds[j] < s.nextId {
      assert 0 <= j < |g| && s.flags[j] && g[j].ids == [];
      assert s.joinIds[j] in Front(g, s.joinIds, j);
      assert s.joinIds[j] in s.records;
    }
  }

  lemma StepJoinStore(g: Graph, bound: nat, s: Snapshot, i: nat)
    requires WellFormed(g) && |s.flags| == |g| && StoreInv(g, bound, s) && i < |g| && !s.flags[i] && g[i].ids == []
    requires forall m :: 0 <= m < |g[i].parents| ==> s.flags[g[i].parents[m]]
    ensures StoreInv(g, bound, Step(g, s, i))
  {
    var s' := Step(g, s, i);
    PrereqsPersisted(g, bound, s, i);
    forall j, x | 0 <= j < |g| && s'.flags[j] && x in Front(g, s'.joinIds, j)
      ensures x in s'.records
    {
      if j != i {
        assert Front(g, s'.joinIds, j) == Front(g, s.joinIds, j);
      }
    }
  }

  lemma StepJoinOrigin(g: Graph, bound: nat, s: Snapshot, i: nat)
    requires WellFormed(g) && |s.flags| == |g|
    requires FlagsInv(g, bound, s) && StoreInv(g, bound, s) && OriginInv(g, s)
    requires i < |g| && !s.flags[i] && g[i].ids == []
    requires forall m :: 0 <= m < |g[i].parents| ==> s.flags[g[i].parents[m]]
    ensures OriginInv(g, Step(g, s, i))
  {
    var s' := Step(g, s, i);
    var jid := s.nextId;
    assert s'.joinIds == s.joinIds[i := jid];
    assert jid !in s.records;
    forall x | x in s'.origin
      ensures x in s'.records && s'.origin[x] < |g| && s'.flags[s'.origin[x]]
      ensures x in Front(g, s'.joinIds, s'.origin[x])
      ensures s'.records[x].prereqs == Prereqs(g, s'.joinIds, s'.origin[x])
      ensures s'.records[x].join == (g[s'.origin[x]].ids == [])
    {
      if x == jid {
        PrereqsUnchanged(g, s, i, jid, i);
      } else {
        var o := s.origin[x];
        assert x in s.records && o < |g| && s.flags[o] && o != i;
        forall m | 0 <= m < |g[o].parents| ensures g[o].parents[m] != i {
          assert s.flags[g[o].parents[m]];
        }
        PrereqsUnchanged(g, s, i, jid, o);
        assert Front(g, s'.joinIds, o) == Front(g, s.joinIds, o);
        assert s'.records[x] == s.records[x];
      }
    }
  }

  lemma StepWorkFlags(g: Graph, bound: nat, s: Snapshot, i: nat)
    requires WellFormed(g) && |s.flags| == |g| && FlagsInv(g, bound, s) && i < |g| && !s.flags[i] && g[i].ids != []
    requires forall m :: 0 <= m < |g[i].parents| ==> s.flags[g[i].parents[m]]
    ensures FlagsInv(g, bound, Step(g, s, i))
  {
  }

  lemma StepWorkStore(g: Graph, bound: nat, s: Snapshot, i: nat)
    requires WellFormed(g) && |s.flags| == |g| && IdsBelow(g, bound) && StoreInv(g, bound, s) && i < |g| && !s.flags[i] && g[i].ids != []
    requires forall m :: 0 <= m < |g[i].parents| ==> s.flags[g[i].parents[m]]
    ensures StoreInv(g, bound, Step(g, s, i))
  {
    var s' := Step(g, s, i);
    PrereqsPersisted(g, bound, s, i);
    forall x | x in s'.records ensures x < s'.nextId {
      if x !in s.records {
        assert x in g[i].ids;
      }
    }
  }

  lemma StepWorkOrigin(g: Graph, bound: nat, s: Snapshot, i: nat)
    requires WellFormed(g) && |s.flags| == |g| && StoreInv(g, bound, s) && OriginInv(g, s) && i < |g| && !s.flags[i] && g[i].ids != []
    requires forall m :: 0 <= m < |g[i].parents| ==> s.flags[g[i].parents[m]]
    ensures OriginInv(g, Step(g, s, i))
  {
    var s' := Step(g, s, i);
    assert s'.joinIds == s.joinIds;
    forall x | x in s'.origin
      ensures x in s'.records && s'.origin[x] < |g| && s'.flags[s'.origin[x]]
      ensures x in Front(g, s'.joinIds, s'.origin[x])
      ensures s'.records[x].prereqs == Prereqs(g, s'.joinIds, s'.origin[x])
      ensures s'.records[x].join == (g[s'.origin[x]].ids == [])
    {
      if x in s.origin {
        assert x in s.records;
      }
    }
  }

  lemma StepMarks(g: Graph, bound: nat, s: Snapshot, i: nat)
    requires WellFormed(g) && |s.flags| == |g| && MarksInv(g, s) && i < |g| && !s.flags[i]
    ensures MarksInv(g, Step(g, s, i))
  {
    var s' := Step(g, s, i);
    assert i !in s.marked;
  }

  lemma StepGrew(g: Graph, bound: nat, s: Snapshot, i: nat)
    requires WellFormed(g) && |s.flags| == |g|
    requires FlagsInv(g, bound, s) && StoreInv(g, bound, s) && OriginInv(g, s)
    requires i < |g| && !s.flags[i]
    ensures Grew(s, Step(g, s, i))
  {
    assert i !in s.joinIds;
    assert s.nextId !in s.records && s.nextId !in s.origin;
  }

  lemma StepInsertedFresh(g: Graph, bound: nat, s: Snapshot, i: nat)
    requires WellFormed(g) && |s.flags| == |g| && StoreInv(g, bound, s)
    requires i < |g| && !s.flags[i]
    requires forall m :: 0 <= m < |g[i].parents| ==> s.flags[g[i].parents[m]]
    ensures InsertedFresh(s, Step(g, s, i))
  {
    var s' := Step(g, s, i);
    var pre := Prereqs(g, s.joinIds, i);
    PrereqsPersisted(g, bound, s, i);
    assert InitialState(s'.records, pre) == InitialState(s.records, pre);
  }

  /** Enqueueing one continuation whose parents are enqueued keeps the
      invariant, flags exactly that continuation, changes nothing already
      stored, and inserts only fresh records, each runnable exactly when its
      prerequisites have succeeded. */
  lemma StepPreserves(g: Graph, bound: nat, s: Snapshot, i: nat, s': Snapshot)
    requires Inv(g, bound, s) && i < |g| && !s.flags[i]
    requires forall m :: 0 <= m < |g[i].parents| ==> s.flags[g[i].parents[m]]
    requires s' == Step(g, s, i)
    ensures Inv(g, bound, s')
    ensures s'.flags == s.flags[i := true]
    ensures Grew(s, s') && InsertedFresh(s, s')
  {
    if g[i].ids == [] {
      StepJoinFlags(g, bound, s, i);
      StepJoinStore(g, bound, s, i);
      StepJoinOrigin(g, bound, s, i);
    } else {
      StepWorkFlags(g, bound, s, i);
      StepWorkStore(g, bound, s, i);
      StepWorkOrigin(g, bound, s, i);
    }
    StepMarks(g, bound, s, i);
    StepGrew(g, bound, s, i);
    StepInsertedFresh(g, bound, s, i);
  }

  // ---------------------------------------------------------------------------
  // processContinuation: a continuation with all its ancestors

  /** Enqueue continuation i after every parent that is not enqueued yet, each
      parent processed the same way, in parent order. */
  function Process(g: Graph, s: Snapshot, i: nat): (r: Snapshot)
    requires WellFormed(g) && |s.flags| == |g| && i < |g|
    ensures |r.flags| == |g|
    decreases i, 1, 0
  {
    Step(g, ProcessParents(g, s, i, |g[i].parents|), i)
  }

  /** The first k parents of i processed in order, each skipped when already enqueued. */
  function ProcessParents(g: Graph, s: Snapshot, i: nat, k: nat): (r: Snapshot)
    requires WellFormed(g) && |s.flags| == |g| && i < |g| && k <= |g[i].parents|
    ensures |r.flags| == |g|
    decreases i, 0, k
  {
    if k == 0 then s
    else
      var s1 := ProcessParents(g, s, i, k - 1);
      var p := g[i].parents[k - 1];
      if s1.flags[p] then s1 else Process(g, s1, p)
  }

  /** Processing continuation i flags exactly the continuations i reaches,
      on top of those already flagged, and keeps the flags closed under parents. */
  lemma {:induction false} ProcessFlags(g: Graph, s: Snapshot, i: nat)
    requires WellFormed(g) && |s.flags| == |g| && i < |g| && Closed(g, s.flags)
    ensures Closed(g, Process(g, s, i).flags)
    ensures forall j :: 0 <= j < |g| ==> Process(g, s, i).flags[j] == (s.flags[j] || j in Reach(g, i))
    decreases i, 1, 0
  {
    var n := |g[i].parents|;
    var s1 := ProcessParents(g, s, i, n);
    ProcessParentsFlags(g, s, i, n);
    ParentsReached(g, i);
    assert Process(g, s, i).flags == s1.flags[i := true];
  }

  lemma {:induction false} ProcessParentsFlags(g: Graph, s: Snapshot, i: nat, k: nat)
    requires WellFormed(g) && |s.flags| == |g| && i < |g| && Closed(g, s.flags) && k <= |g[i].parents|
    ensures Closed(g, ProcessParents(g, s, i, k).flags)
    ensures forall j :: 0 <= j < |g| ==>
      ProcessParents(g, s, i, k).flags[j] == (s.flags[j] || j in ReachParents(g, i, k))
    decreases i, 0, k
  {
    if k > 0 {
      var s1 := ProcessParents(g, s, i, k - 1);
      var p := g[i].parents[k - 1];
      ProcessParentsFlags(g, s, i, k - 1);
      if s1.flags[p] {
        forall j | 0 <= j < |g| ensures s1.flags[j] == (s1.flags[j] || j in Reach(g, p)) {
          if j in Reach(g, p) {
            ClosedReach(g, s1.flags, p, j);
          }
        }
        FlagsAfterParent(g, s.flags, s1.flags, s1.flags, i, k);
      } else {
        ProcessFlags(g, s1, p);
        FlagsAfterParent(g, s.flags, s1.flags, Process(g, s1, p).flags, i, k);
      }
    }
  }

  /** Processing a continuation that is not enqueued keeps the invariant. */
  lemma {:induction false} ProcessPreserves(g: Graph, bound: nat, s: Snapshot, i: nat)
    requires Inv(g, bound, s) && i < |g| && !s.flags[i]
    ensures Inv(g, bound, Process(g, s, i))
    decreases i, 1, 0
  {
    var n := |g[i].parents|;
    var s1 := ProcessParents(g, s, i, n);
    ProcessParentsPreserves(g, bound, s, i, n);
    ProcessParentsFlags(g, s, i, n);
    ParentsReached(g, i);
    StepPreserves(g, bound, s1, i, Step(g, s1, i));
  }

  lemma {:induction false} ProcessParentsPreserves(g: Graph, bound: nat, s: Snapshot, i: nat, k: nat)
    requires Inv(g, bound, s) && i < |g| && k <= |g[i].parents|
    ensures Inv(g, bound, ProcessParents(g, s, i, k))
    decreases i, 0, k
  {
    if k > 0 {
      var s1 := ProcessParents(g, s, i, k - 1);
      var p := g[i].parents[k - 1];
      ProcessParentsPreserves(g, bound, s, i, k - 1);
      if !s1.flags[p] {
        ProcessPreserves(g, bound, s1, p);
      }
    }
  }

  /** Processing a continuation that is not enqueued changes nothing already
      stored and inserts only fresh records. */
  lemma {:induction false} ProcessGrows(g: Graph, bound: nat, s: Snapshot, i: nat)
    requires Inv(g, bound, s) && i < |g| && !s.flags[i]
    ensures Grew(s, Process(g, s, i)) && InsertedFresh(s, Process(g, s, i))
    decreases i, 1, 0
  {
    var n := |g[i].parents|;
    var s1 := ProcessParents(g, s, i, n);
    ProcessParentsGrow(g, bound, s, i, n);
    ProcessParentsPreserves(g, bound, s, i, n);
    ProcessParentsFlags(g, s, i, n);
    ParentsReached(g, i);
    StepPreserves(g, bound, s1, i, Step(g, s1, i));
    GrewTrans(s, s1, Step(g, s1, i));
    InsertedFreshTrans(s, s1, Step(g, s1, i));
  }

  lemma {:induction false} ProcessParentsGrow(g: Graph, bound: nat, s: Snapshot, i: nat, k: nat)
    requires Inv(g, bound, s) && i < |g| && k <= |g[i].parents|
    ensures Grew(s, ProcessParents(g, s, i, k)) && InsertedFresh(s, ProcessParents(g, s, i, k))
    decreases i, 0, k
  {
    if k > 0 {
      var s1 := ProcessParents(g, s, i, k - 1);
      var p := g[i].parents[k - 1];
      ProcessParentsGrow(g, bound, s, i, k - 1);
      if !s1.flags[p] {
        ProcessParentsPreserves(g, bound, s, i, k - 1);
        ParentGrows(g, bound, s, s1, p);
      }
    }
  }

  /** Processing parent p after the state grew from s to s1 still only grows s. */
  lemma ParentGrows(g: Graph, bound: nat, s: Snapshot, s1: Snapshot, p: nat)
    requires Inv(g, bound, s1) && p < |g| && !s1.flags[p]
    requires Grew(s, s1) && InsertedFresh(s, s1)
    ensures Grew(s, Process(g, s1, p)) && InsertedFresh(s, Process(g, s1, p))
    decreases p, 2, 0
  {
    var s2 := Process(g, s1, p);
    ProcessGrows(g, bound, s1, p);
    GrewTrans(s, s1, s2);
    InsertedFreshTrans(s, s1, s2);
  }

  /** Flags after the first k - 1 parents, then the k-th parent with all it reaches. */
  lemma FlagsAfterParent(g: Graph, e: seq<bool>, e1: seq<bool>, e2: seq<bool>, i: nat, k: nat)
    requires WellFormed(g) && i < |g| && 0 < k <= |g[i].parents|
    requires |e| == |g| && |e1| == |g| && |e2| == |g|
    requires forall j :: 0 <= j < |g| ==> e1[j] == (e[j] || j in ReachParents(g, i, k - 1))
    requires forall j :: 0 <= j < |g| ==> e2[j] == (e1[j] || j in Reach(g, g[i].parents[k - 1]))
    ensures forall j :: 0 <= j < |g| ==> e2[j] == (e[j] || j in ReachParents(g, i, k))
  {
  }

  // ---------------------------------------------------------------------------
  // Direct writes to the store

  lemma InsertKeepsStore(g: Graph, bound: nat, s: Snapshot, x: Id, r: Record)
    requires |s.flags| == |g| && StoreInv(g, bound, s) && x < bound && r.prereqs == {}
    ensures StoreInv(g, bound, s.(records := s.records[x := r]))
  {
  }

  lemma InsertKeepsOrigin(g: Graph, s: Snapshot, x: Id, r: Record)
    requires WellFormed(g) && |s.flags| == |g| && OriginInv(g, s) && x !in s.records
    ensures OriginInv(g, s.(records := s.records[x := r]))
  {
    assert x !in s.origin;
  }

  /** Inserting a stand-alone record under a work id not yet stored keeps the invariant. */
  lemma InsertPreserves(g: Graph, bound: nat, s: Snapshot, x: Id, r: Record)
    requires Inv(g, bound, s) && x < bound && x !in s.records && r.prereqs == {}
    ensures Inv(g, bound, s.(records := s.records[x := r]))
    ensures Grew(s, s.(records := s.records[x := r]))
  {
    InsertKeepsStore(g, bound, s, x, r);
    InsertKeepsOrigin(g, s, x, r);
  }

  /** Rewriting the state or output of a stored record keeps the invariant. */
  lemma UpdatePreserves(g: Graph, bound: nat, s: Snapshot, x: Id, r: Record)
    requires Inv(g, bound, s) && x in s.records
    requires r.prereqs == s.records[x].prereqs && r.join == s.records[x].join
    ensures Inv(g, bound, s.(records := s.records[x := r]))
  {
    UpdateKeepsStore(g, bound, s, x, r);
    UpdateKeepsOrigin(g, s, x, r);
  }

  lemma UpdateKeepsStore(g: Graph, bound: nat, s: Snapshot, x: Id, r: Record)
    requires |s.flags| == |g| && StoreInv(g, bound, s) && x in s.records
    requires r.prereqs == s.records[x].prereqs
    ensures StoreInv(g, bound, s.(records := s.records[x := r]))
  {
    assert s.records[x := r].Keys == s.records.Keys;
  }

  lemma UpdateKeepsOrigin(g: Graph, s: Snapshot, x: Id, r: Record)
    requires WellFormed(g) && |s.flags| == |g| && OriginInv(g, s) && x in s.records
    requires r.prereqs == s.records[x].prereqs && r.join == s.records[x].join
    ensures OriginInv(g, s.(records := s.records[x := r]))
  {
  }
}
