# WorkContinuationImpl: continuation graph, enqueue protocol and join output merge

This project models the continuation API of the androidx WorkManager library,
as its instrumentation test `WorkContinuationImplTest` exercises it.
Contracts follow the assertions of `WorkContinuationImplTest`; the code of
`WorkContinuationImpl` is not transcribed. The model covers four things.

- **The builder** (`continuation.dfy`, module `Continuations`).
  - A continuation table is a `seq<Node>`. Each node holds the work ids it
    introduces and the indices of its parents. A parent always sits before its
    children, and the same parent may appear twice, as in `join(A, A)`.
  - `new WorkContinuationImpl(works)` is `Begin`; `then` is `Then`;
    `WorkContinuation.join(c1, c2, ...)` is `Join`;
    `WorkContinuation.join(work, c1, c2, ...)` is `JoinWith`.
  - `getAllIds()` is `AllIds`. `hasCycles()` is `HasCycles`, which holds when
    some continuation it reaches introduces an id that one of that
    continuation's own ancestors already introduced. Sharing an ancestor along two paths, or the
    same id on sibling branches, is not a cycle. `DetectCycles` is the
    memoised walk, proved equal to `HasCycles`.
- **The store** (`store.dfy`, module `Store`).
  - A `Snapshot` holds the enqueued flags, the store of work records, and the
    join ids of enqueued pure joins. A pure join is a join with no work of its
    own.
  - `Step` enqueues one continuation whose parents are already enqueued; it
    persists its records and marks it. `Process` does the same parents-first
    for a whole ancestry. `Inv` is the invariant every enqueue keeps.
- **The work manager** (`manager.dfy`, module `Manager`).
  - A class holds the table, an `array<bool>` of `isEnqueued()` flags, the
    record store, the join ids and the log of scheduler calls.
  - `EnqueueBlocking` does nothing on a continuation that is already enqueued,
    or on one whose graph has a cycle. Otherwise it persists and marks the
    continuation and every ancestor not yet enqueued, parents first, then
    calls the scheduler once with every record eligible for scheduling.
  - `RunJoin` runs a join record. Its output becomes the merge of its
    prerequisites' outputs.
- **The merge** (`merge.dfy`, module `Merging`). Outputs are maps from keys to
  arrays of values. The merge appends, key by key, each prerequisite's array
  to the arrays gathered so far.

`scenarios.dfy` and `enqueue_scenarios.dfy` replay each test method on the
model. Each builds the test's graph with the builder functions, runs the
operation under test, and states the test's assertions as postconditions.

## Model

| member | source | states |
|---|---|---|
| Continuations.Begin | work/workmanager/src/androidTest/java/androidx/work/impl/WorkContinuationImplTest.java:122-132 | a continuation over a non-empty work list is a new root with no parents whose ids are its works; getAllIds() is exactly those works; a root has no cycle; an empty work list is refused |
| Continuations.Then | work/workmanager/src/androidTest/java/androidx/work/impl/WorkContinuationImplTest.java:134-150 | then() appends a node whose only parent is the receiver and whose own ids are the new works; getAllIds() is the new works plus the receiver's getAllIds(); it has a cycle exactly when the receiver has one or a new work is already among the receiver's ids |
| Continuations.JoinNode | work/workmanager/src/androidTest/java/androidx/work/impl/WorkContinuationImplTest.java:188-215 | a join of at least two continuations appends a node whose parents are exactly the joined ones, in order; its ids are its own works plus every parent's getAllIds(); it has a cycle exactly when a parent has one or an own work is among a parent's ids |
| Continuations.Join | work/workmanager/src/androidTest/java/androidx/work/impl/WorkContinuationImplTest.java:188-199 | join(c1, c2, ...) adds a pure join with parents exactly c1, c2, ... and no work; its getAllIds() is the union of theirs; it is cyclic exactly when one of them is |
| Continuations.JoinWith | work/workmanager/src/androidTest/java/androidx/work/impl/WorkContinuationImplTest.java:201-215 | join(work, c1, c2, ...) adds a join whose own ids are exactly [work] and whose parents are exactly c1, c2, ...; getAllIds() adds work to the parents' ids |
| Continuations.NewNodeIds | work/workmanager/src/androidTest/java/androidx/work/impl/WorkContinuationImplTest.java:143-149 | an id is in getAllIds() of a new continuation exactly when it is one of its own works or in getAllIds() of one of its parents |
| Continuations.NewNodeCycles | work/workmanager/src/androidTest/java/androidx/work/impl/WorkContinuationImplTest.java:338-346 | a new continuation has a cycle exactly when a parent has one or one of its own works is already among a parent's ids |
| Continuations.AllIdsIsReachableIds | work/workmanager/src/androidTest/java/androidx/work/impl/WorkContinuationImplTest.java:146-149 | getAllIds() of a continuation is exactly the ids of the continuations it reaches through parents, itself included |
| Continuations.AncestorIdsAreProperAncestorIds | work/workmanager/src/androidTest/java/androidx/work/impl/WorkContinuationImplTest.java:338-346 | the ids a continuation's ancestors introduce are exactly the ids of every continuation it reaches other than itself |
| Continuations.HasCyclesIffReachableClash | work/workmanager/src/androidTest/java/androidx/work/impl/WorkContinuationImplTest.java:325-474 | hasCycles() holds exactly when some continuation it reaches introduces an id that one of that continuation's own ancestors introduced |
| Continuations.CyclicParentsFromParents | work/workmanager/src/androidTest/java/androidx/work/impl/WorkContinuationImplTest.java:372-376 | the parents of a continuation carry a cycle exactly when one of them has one |
| Continuations.ExtendPreserves | work/workmanager/src/androidTest/java/androidx/work/impl/WorkContinuationImplTest.java:368-371 | building more continuations changes neither getAllIds(), nor the ancestry, nor hasCycles() of an existing one |
| Continuations.DetectCycles | work/workmanager/src/androidTest/java/androidx/work/impl/WorkContinuationImplTest.java:346 | the memoised cycle walk answers exactly hasCycles(), that is, whether some reachable continuation clashes with its ancestors |
| Continuations.ClosedReach | work/workmanager/src/androidTest/java/androidx/work/impl/WorkContinuationImplTest.java:476-484 | when every enqueued continuation has enqueued parents, everything an enqueued continuation reaches is enqueued |
| Continuations.VerifyEnqueuedIffReachFlagged | work/workmanager/src/androidTest/java/androidx/work/impl/WorkContinuationImplTest.java:476-484 | the recursive verifyEnqueued() check passes exactly when every continuation reachable through parents is enqueued |
| Scenarios.NoParent | work/workmanager/src/androidTest/java/androidx/work/impl/WorkContinuationImplTest.java:122-132 | a root has no parents, its ids are [w], and getAllIds() is {w}, of size 1 |
| Scenarios.SingleChain | work/workmanager/src/androidTest/java/androidx/work/impl/WorkContinuationImplTest.java:134-150 | after then(b) the only parent is the root, the ids are [b], and getAllIds() is {a, b}, of size 2 |
| Scenarios.JoinTwo | work/workmanager/src/androidTest/java/androidx/work/impl/WorkContinuationImplTest.java:188-215 | join(first, second) has parents exactly [first, second] and no work; join(w, first, second) has the same parents and ids exactly [w]; `testContinuation_withWorkJoin` carries no `@Test` annotation, so the suite never runs the assertions this half states |
| Scenarios.CycleThroughJoin | work/workmanager/src/androidTest/java/androidx/work/impl/WorkContinuationImplTest.java:325-347 | join(A, B then C) followed by B has a cycle |
| Scenarios.SelfLoop | work/workmanager/src/androidTest/java/androidx/work/impl/WorkContinuationImplTest.java:349-359 | A followed by A has a cycle |
| Scenarios.JoinOfCycles | work/workmanager/src/androidTest/java/androidx/work/impl/WorkContinuationImplTest.java:361-377 | the join of two A-then-A chains built on the same A has a cycle |
| Scenarios.CycleBelowSelfJoin | work/workmanager/src/androidTest/java/androidx/work/impl/WorkContinuationImplTest.java:379-401 | join(A, A), then C, then A has a cycle |
| Scenarios.SharedSiblings | work/workmanager/src/androidTest/java/androidx/work/impl/WorkContinuationImplTest.java:403-420 | roots [A, B] and [B, C] joined have no cycle |
| Scenarios.Fork | work/workmanager/src/androidTest/java/androidx/work/impl/WorkContinuationImplTest.java:429-442 | a root A with B after it and C after it appends three nodes, and neither branch has a cycle |
| Scenarios.TwoForks | work/workmanager/src/androidTest/java/androidx/work/impl/WorkContinuationImplTest.java:429-442 | the two forks side by side: none of the four branches has a cycle |
| Scenarios.TwoDiamonds | work/workmanager/src/androidTest/java/androidx/work/impl/WorkContinuationImplTest.java:422-451 | two separate roots A, each followed by B and by C, all four branches joined, have no cycle |
| Scenarios.SharedRootHalves | work/workmanager/src/androidTest/java/androidx/work/impl/WorkContinuationImplTest.java:460-470 | join(A, B) and join(A, C) over the same A have no cycle |
| Scenarios.SharedRoot | work/workmanager/src/androidTest/java/androidx/work/impl/WorkContinuationImplTest.java:453-474 | join(join(A, B), join(A, C)) has no cycle |
| Merging.MergeIsColumn | work/workmanager/src/androidTest/java/androidx/work/impl/WorkContinuationImplTest.java:313-321 | the merged array under a key is the outputs' arrays under that key, concatenated from the first output to the last |
| Merging.MergeKeys | work/workmanager/src/androidTest/java/androidx/work/impl/WorkContinuationImplTest.java:313-320 | a key is in the merged output exactly when some output has it |
| Merging.ColumnMembers | work/workmanager/src/androidTest/java/androidx/work/impl/WorkContinuationImplTest.java:317-321 | a value is in the concatenated array under a key exactly when some output holds it under that key |
| Merging.MergeMembers | work/workmanager/src/androidTest/java/androidx/work/impl/WorkContinuationImplTest.java:317-321 | a value is in the merged array under a key exactly when some output holds it under that key |
| Merging.MergeSingle | work/workmanager/src/androidTest/java/androidx/work/impl/WorkContinuationImplTest.java:313-321 | merging a single output gives that output back unchanged |
| Store.StepPreserves | work/workmanager/src/androidTest/java/androidx/work/impl/WorkContinuationImplTest.java:157 | enqueueing one continuation whose parents are enqueued sets its flag and only its flag; it keeps the store invariant, changes no existing flag, join id or record, and gives every new record an empty output and a state that is Enqueued exactly when all its prerequisites have succeeded |
| Store.ProcessFlags | work/workmanager/src/androidTest/java/androidx/work/impl/WorkContinuationImplTest.java:157-158 | processing a continuation sets exactly the flags of the continuations it reaches and keeps every enqueued continuation's parents enqueued |
| Store.ProcessPreserves | work/workmanager/src/androidTest/java/androidx/work/impl/WorkContinuationImplTest.java:157-158 | processing a continuation keeps the store invariant: each enqueued pure join has one join id of its own, what each enqueued continuation stands for is persisted, and markEnqueued() is logged once per enqueued continuation |
| Store.ProcessGrows | work/workmanager/src/androidTest/java/androidx/work/impl/WorkContinuationImplTest.java:157-158 | processing a continuation only adds: no flag is cleared, no join id, record or mark is changed or dropped, and every new record belongs to a continuation that was not enqueued before |
| Store.InsertedFreshTrans | work/workmanager/src/androidTest/java/androidx/work/impl/WorkContinuationImplTest.java:157 | a new record keeps these properties across several enqueue steps: its continuation was not enqueued before, its output is empty, and its initial state follows its prerequisites |
| Store.InsertPreserves | work/workmanager/src/androidTest/java/androidx/work/impl/WorkContinuationImplTest.java:273-275 | inserting a stand-alone work record keeps the store invariant and changes no existing record |
| Store.UpdatePreserves | work/workmanager/src/androidTest/java/androidx/work/impl/WorkContinuationImplTest.java:277-282 | rewriting a record's state or output keeps the store invariant |
| Manager.MergeInputs | work/workmanager/src/androidTest/java/androidx/work/impl/WorkContinuationImplTest.java:304-321 | the loop visits every prerequisite exactly once, in some order, and returns the merge of their outputs in that order; a key is in the result exactly when some prerequisite's output has it, and a value is under a key exactly when some prerequisite produced it there |
| Manager.InputKeys | work/workmanager/src/androidTest/java/androidx/work/impl/WorkContinuationImplTest.java:313-320 | the keys of the merged input are exactly the keys of the prerequisites' outputs, whatever the enumeration order |
| Manager.InputValues | work/workmanager/src/androidTest/java/androidx/work/impl/WorkContinuationImplTest.java:313-321 | the values under a key of the merged input are exactly those some prerequisite output under that key, whatever the enumeration order |
| Manager.WorkManager.constructor | work/workmanager/src/androidTest/java/androidx/work/impl/WorkContinuationImplTest.java:154-156 | a fresh manager has nothing enqueued, an empty store and no scheduler call |
| Manager.WorkManager.IsEnqueued | work/workmanager/src/androidTest/java/androidx/work/impl/WorkContinuationImplTest.java:476-484 | when isEnqueued() is true, every continuation reachable through parents is enqueued too |
| Manager.WorkManager.Ids | work/workmanager/src/androidTest/java/androidx/work/impl/WorkContinuationImplTest.java:129-130 | getIds() is the continuation's own works; a pure join has no id until it is enqueued and exactly one afterwards; the ids of an enqueued continuation are all in the store |
| Manager.WorkManager.AllIdsNow | work/workmanager/src/androidTest/java/androidx/work/impl/WorkContinuationImplTest.java:292-298 | getAllIds() is the union of getIds() over every continuation it reaches, so it holds the join id of each reachable enqueued pure join, its own included; it holds every work id of the ancestry, and any other id it holds is a join id from the store's fresh range |
| Store.KnownIdsAreReachedFronts | work/workmanager/src/androidTest/java/androidx/work/impl/WorkContinuationImplTest.java:292-298 | when only pure joins carry join ids, the work ids of the ancestry together with the reachable join ids are exactly the union of the fronts (getIds()) of the reachable continuations |
| Manager.WorkManager.InsertWorkSpec | work/workmanager/src/androidTest/java/androidx/work/impl/WorkContinuationImplTest.java:273-275 | insertWorkSpec stores a record in the given state with no prerequisites and an empty output, unless the id is already stored |
| Manager.WorkManager.SetOutput | work/workmanager/src/androidTest/java/androidx/work/impl/WorkContinuationImplTest.java:277-282 | setOutput replaces the output of the stored record and nothing else |
| Manager.WorkManager.EnqueueOwn | work/workmanager/src/androidTest/java/androidx/work/impl/WorkContinuationImplTest.java:157 | enqueueing one continuation persists its records, or a single join record with a fresh id for a pure join, then marks it enqueued |
| Manager.WorkManager.EnqueueNode | work/workmanager/src/androidTest/java/androidx/work/impl/WorkContinuationImplTest.java:476-484 | the parents-first walk leaves exactly the state of processing that continuation |
| Manager.WorkManager.EligibleForScheduling | work/workmanager/src/androidTest/java/androidx/work/impl/WorkContinuationImplTest.java:493-494 | the eligible work is exactly the stored records in state Enqueued, each listed once |
| Manager.WorkManager.EnqueueAcyclic | work/workmanager/src/androidTest/java/androidx/work/impl/WorkContinuationImplTest.java:157-158 | enqueueing an acyclic continuation that is not enqueued sets exactly the flags of what it reaches, so verifyEnqueued() passes, and only adds to the store |
| Manager.WorkManager.EnqueueBlocking | work/workmanager/src/androidTest/java/androidx/work/impl/WorkContinuationImplTest.java:152-186 | enqueueBlocking() does nothing to flags, store, marks or scheduler when the continuation is already enqueued or cyclic; otherwise it enqueues exactly what the continuation reaches, so verifyEnqueued() passes, and calls the scheduler once with exactly the records in state Enqueued |
| Manager.WorkManager.RunJoin | work/workmanager/src/androidTest/java/androidx/work/impl/WorkContinuationImplTest.java:304-311 | running an enqueued join record makes it Succeeded, with the merge of its prerequisites' outputs, taken once each in some order, as its output; nothing else changes, and nothing changes for any other record |
| EnqueueScenarios.EnqueueRoot | work/workmanager/src/androidTest/java/androidx/work/impl/WorkContinuationImplTest.java:152-160 | a root is not enqueued before enqueueBlocking() and is afterwards; the scheduler is called once, and every eligible record is in that call |
| EnqueueScenarios.Chain | work/workmanager/src/androidTest/java/androidx/work/impl/WorkContinuationImplTest.java:164-167 | the chain root, then one work, then two works is the three-node table it builds, with no cycle |
| EnqueueScenarios.ChainEnqueue | work/workmanager/src/androidTest/java/androidx/work/impl/WorkContinuationImplTest.java:162-171 | enqueueing the end of the chain enqueues the root too; one scheduler call holds every eligible record |
| EnqueueScenarios.ChainEnqueueNoOpOnRetry | work/workmanager/src/androidTest/java/androidx/work/impl/WorkContinuationImplTest.java:173-186 | the second enqueueBlocking() reports the chain already enqueued, calls markEnqueued() on nothing and does not call the scheduler again |
| EnqueueScenarios.Pairs | work/workmanager/src/androidTest/java/androidx/work/impl/WorkContinuationImplTest.java:219-232 | the four roots and the two pair joins are the nodes the test builds, and neither join has a cycle |
| EnqueueScenarios.JoinOfJoins | work/workmanager/src/androidTest/java/androidx/work/impl/WorkContinuationImplTest.java:219-234 | the join of the two pair joins is the seven-node table the test builds, with no cycle |
| EnqueueScenarios.JoinAndEnqueue | work/workmanager/src/androidTest/java/androidx/work/impl/WorkContinuationImplTest.java:217-238 | enqueueing the join of joins enqueues all seven continuations; exactly the three pure joins get join ids, all distinct; the scheduler is called once with every eligible record |
| EnqueueScenarios.OnePerPureJoin | work/workmanager/src/androidTest/java/androidx/work/impl/WorkContinuationImplTest.java:229-236 | with the top join enqueued, exactly the three pure joins hold join ids, and no two share one |
| EnqueueScenarios.JoinAndEnqueueWithOverlaps | work/workmanager/src/androidTest/java/androidx/work/impl/WorkContinuationImplTest.java:240-257 | enqueueing join(join(A, B), join(A, C)) enqueues every continuation; markEnqueued() is called on the shared A and on no continuation twice; the scheduler is called once with every eligible record |
| EnqueueScenarios.JoinOfRoots | work/workmanager/src/androidTest/java/androidx/work/impl/WorkContinuationImplTest.java:284-289 | the join of the two single-work roots is the three-node table the test builds, with no cycle |
| EnqueueScenarios.StoredSucceeded | work/workmanager/src/androidTest/java/androidx/work/impl/WorkContinuationImplTest.java:266-275 | after insertWorkSpec of both works, the store holds exactly the two works, both Succeeded, with empty outputs |
| EnqueueScenarios.StoredOutputs | work/workmanager/src/androidTest/java/androidx/work/impl/WorkContinuationImplTest.java:273-282 | after setOutput, the first work's output is {myint: [0]} and the second's is {myint: [1], mystring: ["hello"]}; nothing is enqueued yet |
| EnqueueScenarios.EnqueueStoredJoin | work/workmanager/src/androidTest/java/androidx/work/impl/WorkContinuationImplTest.java:284-298 | after enqueueBlocking() of the join, getAllIds() is exactly the two works plus one join id distinct from both; the join record waits for exactly the two works and is Enqueued |
| EnqueueScenarios.StoredJoinIds | work/workmanager/src/androidTest/java/androidx/work/impl/WorkContinuationImplTest.java:292-298 | getAllIds() of the enqueued join of the two roots is exactly the two works and the join's own join id |
| EnqueueScenarios.StoredJoinEnqueued | work/workmanager/src/androidTest/java/androidx/work/impl/WorkContinuationImplTest.java:288-290 | enqueueing the join inserts a join record of its own, not either work, that waits for exactly the two works and is Enqueued because both have succeeded; the two works' records are unchanged |
| EnqueueScenarios.JoinIdInserted | work/workmanager/src/androidTest/java/androidx/work/impl/WorkContinuationImplTest.java:288-298 | the join id is a new record, differs from both works, is marked as a join record, and waits for the fronts of the join's parents |
| EnqueueScenarios.JoinRecordReady | work/workmanager/src/androidTest/java/androidx/work/impl/WorkContinuationImplTest.java:288-290 | a join record over the two succeeded works waits for exactly those two and starts Enqueued |
| EnqueueScenarios.PrereqsOfJoin | work/workmanager/src/androidTest/java/androidx/work/impl/WorkContinuationImplTest.java:288-289 | the prerequisites of the join of the two roots are exactly the two works |
| EnqueueScenarios.JoinPassesAllOutput | work/workmanager/src/androidTest/java/androidx/work/impl/WorkContinuationImplTest.java:259-323 | running the join record succeeds; its output holds 0 and 1 under "myint", once each, so the sorted array contains both; its array under "mystring" is exactly ["hello"] |
| EnqueueScenarios.OrderOfPair | work/workmanager/src/androidTest/java/androidx/work/impl/WorkContinuationImplTest.java:313-317 | the store enumerates the two prerequisites in one of the two orders, which is why the test sorts the array before searching it |
| EnqueueScenarios.OutputArrays | work/workmanager/src/androidTest/java/androidx/work/impl/WorkContinuationImplTest.java:277-282 | the first output holds [0] under the int tag and nothing under the string tag; the second holds [1] and ["hello"] |
| EnqueueScenarios.MergePair | work/workmanager/src/androidTest/java/androidx/work/impl/WorkContinuationImplTest.java:313-321 | merging two outputs gives, under each key, the first's array followed by the second's |
| EnqueueScenarios.MergedInOrder | work/workmanager/src/androidTest/java/androidx/work/impl/WorkContinuationImplTest.java:313-321 | the two outputs merged first to second give [0, 1] under the int tag, as a multiset, and ["hello"] under the string tag |
| EnqueueScenarios.MergedInReverse | work/workmanager/src/androidTest/java/androidx/work/impl/WorkContinuationImplTest.java:313-321 | the two outputs merged second to first give the same multiset of integers and the same ["hello"] |
| EnqueueScenarios.MergedOutputs | work/workmanager/src/androidTest/java/androidx/work/impl/WorkContinuationImplTest.java:313-321 | whichever order the store enumerates the two works in, the merged integers are 0 and 1 once each and the merged strings are exactly ["hello"] |

## Left out

- Persistence (Room/SQLite, `WorkDatabase`, `WorkSpecDao`) is a map from id to record. The executors, `ArchTaskExecutor`, `Thread.sleep` and lifecycle owners are test plumbing with no effect on the modelled state. Mockito spies and argument captors are replaced by two logs: one of the `markEnqueued()` calls and one of the scheduler calls.
- Work ids are natural numbers, not random UUID strings. A pure join's join id is the next free number above every work id of the table, which stands in for a fresh UUID.
- The scenarios use distinct work ids wherever the test creates distinct works. The `Chain` scenario requires its four ids to differ, as four `createTestWorker()` calls would make them.
- The serialized `Data` format, its size limit, and the difference between a scalar and a one-element array are left out. A value is a tagged int or string, and every key holds an array, because the array-creating merger the join uses turns scalars into arrays. Arrays of different element types under one key are not told apart: a `Value` array may mix ints and strings.
- `WorkerWrapper` running an ordinary worker is left out. Only `RunJoin` models running a join record, and it does nothing to a record that is not an enqueued join record.
- Unblocking dependents after a work completes (the rest of `WorkerWrapper`) is left out. A record inserted with a prerequisite that has not succeeded stays Blocked.
- `cancelWorkByIdBlocking` in `tearDown` is left out; it only cleans up between tests.
- The join id of a pure join is assigned when the join is enqueued; before that its getIds() is empty.
- A `WorkManager` takes the whole continuation table when it is constructed (`graph`, `enqueued` and `idBound` are fixed then). No continuation can be built once a manager exists, so chaining `then()` or `join()` off a continuation that is already enqueued, on the same store, is not represented.
- Manager.WorkManager.InsertWorkSpec: requires the work id to be below `idBound`, the bound of the table's work ids, so a record for a work outside the table, which the store would accept, is not modelled; ids at or above the bound are reserved for join records.
- A Work's own initial state (`withInitialState`) is not carried by the table. Records an enqueue inserts always take their state from their prerequisites (`InitialState`): Enqueued when all have succeeded, Blocked otherwise. The test gives such a state only to the two works it inserts directly with `InsertWorkSpec`.
- Continuations.JoinNode: the tests only join two or more continuations; with fewer the model returns `TooFewParents`, and whether the library accepts such a join is not modelled.
- EnqueueScenarios.EnqueueRoot: states only what `verifyScheduled` checks, that every eligible record is in the one scheduler call. `EnqueueBlocking` itself states the exact batch.
- The scheduler batch may be empty when nothing is eligible; the test's `verify(..., times(1))` counts the call, which the model records either way.
