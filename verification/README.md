# Dazyflow: a verified model of the run dispatcher and the protocols around it

Dazyflow runs a flow as a graph of steps over a shared job store. Workers finish steps, and every completion
advances the run: dependents whose inputs have all arrived are queued, dependents that can no longer get their
inputs are skipped together with what hangs off them, and a completion check decides whether the run is over.
Several workers, a reaper and a canceller do this at the same time.

This project models that core in Dafny 4 and proves what holds of it in every run. The files fall into groups:

- **What is decided.** `Graphs.dfy`, `Decisions.dfy`, `Passes.dfy`: graphs, job records, how an edge reads its
  predecessor, what becomes of a dependent, when a run is over, and the relation `Spread` between the records before
  and after a pass, which has exactly one solution on an acyclic graph.
- **The dispatcher as code.** `RunStores.dfy`, `Topologies.dfy`, `Dispatcher.dfy`: the store's atomic operations, the
  cached adjacency index, the memo of one pass, the mutually recursive dispatch and skip cascade, and the two ways a
  completion is carried out.
- **Runs of whole passes.** `Fates.dfy`, `AtomicRuns.dfy`: a completion with its whole advance is one step. No run is
  stranded, and every node meets a fate that is computed by recursion along the graph, whatever the schedule.
- **Runs of store operations.** `Interleaving.dfy`, `InterleavingInvariant.dfy`, `InterleavedRuns.dfy`,
  `Cancelling.dfy`, `Joins.dfy`, `Endings.dfy`, `Returning.dfy`, `SoloCalls.dfy`, `SoloReturns.dfy`,
  `Counterexamples.dfy`: every read and write of every call is a step of its own, any number of calls are in flight, and
  cancels sweep in between. Every call that keeps getting turns returns, and alone it is one pass. Joins, routing, fates,
  the end of the run and its single Terminal event survive; two executions show where the guarantees stop, and `Joins.dfy`
  and `Cancelling.dfy` say exactly where.
- **Algorithms the dispatcher relies on.** `TopSort.dfy`, `ValueSize.dfy`, `FlowStrings.dfy`, `Shapes.dfy`, `GraphEdit.dfy`,
  `EditMeaning.dfy`, `Placement.dfy`, `Rows.dfy`.
- **Small concurrent protocols.** `SessionCache.dfy`, `CacheRuns.dfy`, `EventBus.dfy`, `MirrorPusher.dfy`,
  `PusherRuns.dfy`, `McpGrants.dfy`, `GrantRuns.dfy`, `DataKeys.dfy`, `KeyRaces.dfy`: each has its critical sections as
  methods proved against functions, a step relation over those functions or tied to them by a lemma, an invariant, and
  theorems about every execution. Theorems refer to the steps of the execution; where one mentions a field that records
  history, another ties that field to the steps.

Conventions. Strings stand for byte sequences and are ordered byte by byte, except in `BaseName`, which works rune by
rune and where a character is a rune; integers and canvas coordinates are
mathematical. I/O, clocks, randomness and the calls into code outside the model are parameters or nondeterministic
events: a worker's result is any record, a clock reading is the model's current time, a minted secret is any value not
minted before. `IsExecution` in each module says what a run is; theorems quantify over all of them.

Three promises turn out to have exceptions, and all are pinned down exactly.

A pass keeps its first reading of a predecessor through a whole skip cascade. So under interleaving a join below a
skipped node can stay unrecorded although all its predecessors are done (`SkipCascadeCanStrandJoin`). From the moment
all predecessors of a join are done, the join gets its record if and only if some call is still to look at it with no
reading of one of them as unfinished (`JoinRecordedExactlyIfWoken`). The call that finishes the last predecessor is such
a call, whether it executed the node or switched it off (`NoLostWakeUp`, `WriterWakes`, `PlannerWakes`). The one
exception is a cascade that has read another predecessor as unfinished before (`CascadeWakesUnlessStale`,
`CascadeAtJoin`).

A cancel's sweep finishes every node recorded when the run record is flipped, whatever else is in flight
(`SweepFinishesTheRecorded`). It can end with a node queued that was not recorded then (`CancelCanLeaveNodeQueued`). Such
a node was queued by a call that had passed its look at the run record before the flip (`EscapeHasCulprit`), and a node
can escape if and only if such a call can come to be one write away from queueing it (`EscapesExactlyIfReached`). The
comment at daemon/cancel.go:90-95 leaves such late nodes to the worker that claims them.

A new card goes to the first free row beside its source, or to a new row, and stays there. That holds of every batch of
edits exactly if the batch lists no id twice (`InRowExactlyIfDistinct`). A batch that adds a node, removes it and adds it
again lists it twice, and the card is then placed twice, the second time below its own first place.

## Model

| member | source | states |
|---|---|---|
| `Decisions.ScanFailurePropagates` | daemon/dispatch.go:554-582 | the scan over nodes and edges answers exactly whether the failure of a node fails the run: yes if the node may not fail, has no fallback edge, and has no outgoing edge or one that tolerates nothing; no if it may fail, or has a fallback edge, or has outgoing edges that are all skip edges |
| `Decisions.FatalOrTolerated` | daemon/dispatch.go:554-582 | a failure is either fatal or tolerated, in the flow's own terms |
| `Decisions.QueuedExactlyWhenDelivered` | daemon/dispatch.go:430-552 | whatever the predecessors are doing, a dependent waits if and only if some predecessor has no record, is queued or running, or is parked and keeps that port for its decision; after that it is queued if and only if some edge delivers and each of the others delivers or is an unneeded fallback, policy by policy and port by port; otherwise it is skipped |
| `Decisions.EnqueuedExactlyIfLive` | daemon/dispatch.go:430-552 | a node of a graph waits if and only if an edge into it is undecided, and is queued if and only if the edges into it call for it |
| `Decisions.Verdict` | daemon/dispatch.go:584-646 | the completion scan says Succeeded exactly when every node is terminal and none is a propagating failure, and Failed only if one is |
| `Decisions.DecisionIsFinal` | daemon/dispatch.go:430-479 | without parking a decision to queue or to skip is never changed by later records |
| `Decisions.VerdictIsFinal` | daemon/dispatch.go:584-646 | a completion verdict is never changed by later records |
| `Decisions.SameEvidenceSameDecision` | daemon/dispatch.go:430-479 | two stores that agree on a dependent's predecessors decide alike |
| `Passes.PassKeepsDecision` | daemon/dispatch.go:346-416 | decisions taken survive whatever the rest of the pass records |
| `Passes.SpreadCompose` | daemon/dispatch.go:186-262 | two passes over the same dependents are one pass |
| `Passes.SpreadUnique` | daemon/dispatch.go:346-416 | on an acyclic graph the outcome of a pass is unique, so neither the order of dependents nor the path that runs it matters |
| `RunStores.RunStore.Enqueue` | engine/jobstore/memory.go:104-118 | an existing record is refused and kept |
| `RunStores.RunStore.Complete` | engine/jobstore/memory.go:361-391 | a completion is let through exactly if the node has a record, the worker holds it or no worker is named, and the record is not terminal; a parked one does not park again |
| `RunStores.RunStore.CompleteRun` | engine/jobstore/memory.go:361-391 | the run record becomes terminal at most once |
| `RunStores.RunStore.CompleteAndEnqueue` | engine/jobstore/memory.go:328-353 | the record and its dependents are written together or not at all, existing dependents are kept, nothing is queued on a finished run, and the count is the number of records added |
| `Topologies.BuildTopology` | daemon/dispatchindex.go:22-39 | the index holds, for every node, its incoming edges in order and its successors without repetition |
| `Topologies.TopologyCache.Get` | daemon/dispatchindex.go:49-69 | the cache returns the index of the run's own graph, keeps at most eight in arrival order and evicts the oldest |
| `Dispatcher.DispatchIndex.Pred` | daemon/dispatchindex.go:85-99 | a memoised read sees the store through what the pass has seen before, and changes nothing later reads can see |
| `Dispatcher.DispatchIndex.Put` | daemon/dispatchindex.go:101-107 | a record put into the memo is what later reads see |
| `Dispatcher.AnalyzeDependent` | daemon/dispatch.go:430-479 | one look at a dependent decides as a scan of all edges over everything the pass knows: the dependent waits exactly while an edge into it is undecided and is queued exactly if the edges into it call for it, in terms of ports and policies; the memo grows without changing what the pass knows |
| `Dispatcher.DispatchReady` | daemon/dispatch.go:346-383 | the recursive dispatch relates the records before and after by `Spread` and the run record only moves as a completion check of those records demands |
| `Dispatcher.RecordSkipped` | daemon/dispatch.go:385-416 | so does the skip cascade |
| `Dispatcher.MaybeCompleteGraph` | daemon/dispatch.go:584-646 | the run ends with the verdict of its records, or failed if the last node's failure propagates, and one Terminal event is published when and only when this call ended it; it fails if the last node failed and must not, and succeeds if all nodes are finished and those that failed may |
| `Dispatcher.FinalizeGraph` | daemon/dispatch.go:653-675 | only the call that ends the run publishes |
| `Dispatcher.CompleteThenAdvance` | daemon/dispatch.go:151-184 | complete, look at the run, dispatch, check: succeeds exactly when the store accepts the completion, and the whole is then a `PassStep` |
| `Dispatcher.SkipNode` | daemon/worker.go:243-262 | a step the worker switches off is a `PassStep` with a skipped record; on a run that has ended meanwhile the same records are spread and the end is kept |
| `Dispatcher.PlanAdvance` | daemon/dispatch.go:202-230 | the plan lists exactly the dependents the completion will make ready and asks for a revisit if any other dependent is left |
| `Dispatcher.PlanCovers` | daemon/dispatch.go:186-230 | committing a plan is a pass over the planned dependents, and over all of them when no revisit is asked for |
| `Dispatcher.FinishAdvance` | daemon/dispatch.go:232-262 | commit and revisit together are one pass over all dependents, with its completion check |
| `Dispatcher.CompleteInOneTransaction` | daemon/dispatch.go:186-262 | plan, one transaction, finish: succeeds exactly when the store accepts the completion, and the whole is then a `PassStep` too |
| `AtomicRuns.CompletionPathsAgree` | daemon/dispatch.go:151-262 | from every reachable state the two completion paths leave the same records, run status and events |
| `AtomicRuns.NoStrandedRun` | daemon/dispatch.go:151-184 | in every reachable state of an unfinished run a dependent has a record exactly when its predecessors are done, and once nothing is pending the run has succeeded or failed with one Terminal event |
| `AtomicRuns.FinishedRunOutcome` | daemon/dispatch.go:584-646 | a finished run failed if and only if some node's fate is a propagating failure |
| `AtomicRuns.RunFailsOnFatalFailures` | daemon/dispatch.go:554-646 | a finished run failed if and only if a node that must not fail did, and succeeded if and only if every node that failed may |
| `AtomicRuns.QueuedExactlyIfLive` | daemon/dispatch.go:346-416 | in every run a node gets its record once its predecessors are finished, Queued exactly if the edges into it call for it and Skipped otherwise |
| `Fates.RecordIsFate` | daemon/dispatch.go:430-552 | every finished node's record is its fate, computed from the nodes' outcomes by recursion along the graph |
| `Fates.ScheduleIndependence` | daemon/dispatch.go:430-552 | two runs whose nodes end alike agree on every node both finished |
| `Fates.RunFailsIffSomeFateIsFatal` | daemon/dispatch.go:554-646 | and on whether the run failed |
| `Fates.ReleasedOnlyByLiveWires` | daemon/dispatch.go:430-552 | a released dependent has only active or dormant edges, one of them active |
| `Fates.DeclinedBranchNeverRuns` | daemon/dispatch.go:490-552 | behind a port its succeeded node did not emit on, nothing reachable along strict edges runs |
| `InterleavingInvariant.ExecutionKeepsInv` | daemon/dispatch.go:151-262 | an invariant over records, memos, plans, dispatch stacks, checks and debts holds after every step of every interleaving |
| `InterleavedRuns.NoLostWakeUp` | daemon/dispatch.go:186-262 | under every interleaving of store operations, if the predecessor of a join that finished last did so by its own call and that call has returned, the join has a record, however the other predecessors finished |
| `InterleavedRuns.LastToCommit` | daemon/dispatch.go:186-200 | among predecessors that all executed one wrote its record last, so all the others had written theirs by then |
| `InterleavedRuns.LastPredecessor` | daemon/dispatch.go:186-200 | of the predecessors of a node that have all finished in an open run one finished last, however each finished |
| `Joins.JoinRecordedExactlyIfWoken` | daemon/dispatch.go:346-416 | in every execution, once all predecessors of an unrecorded join are done: if no call wakes it then no continuation records it, and in a run that is still open when all calls have returned it is recorded if and only if some call woke it |
| `Joins.WriterWakes` | daemon/dispatch.go:151-184 | the call that writes the last open predecessor of a join itself wakes the join |
| `Joins.PlannerWakes` | daemon/dispatch.go:186-262 | the transaction that finishes the last open predecessor of a join records the join or wakes it |
| `Joins.CascadeWakesUnlessStale` | daemon/dispatch.go:385-416 | a cascade that skips the last open predecessor of a join wakes it if and only if its memo holds no other predecessor of the join as unfinished |
| `Joins.CascadeAtJoin` | daemon/dispatchindex.go:85-107 | in every execution, after such a skip: with a fresh memo the join is recorded by the time the call returns, and with a stale one and no other call to wake it no continuation records it |
| `InterleavedRuns.RunEndsOnce` | daemon/dispatch.go:653-675 | the run's end never changes and at most one Terminal event is published, with that status, over every interleaving of completion checks, reapers and cancels; a cancel ends it Cancelled, giving up on it Failed |
| `InterleavedRuns.EndedRunIsAnnounced` | daemon/dispatch.go:653-675 | once no call is in flight an ended run has published its event |
| `Endings.FinishedRunHasEnded` | daemon/dispatch.go:181-183 | in every execution, when no call is in flight and every node is finished, the run has ended and published its one event: whoever finishes the last node checks |
| `Endings.IdleRunWaits` | daemon/dispatch.go:151-262 | in every execution an idle run that goes on has a queued or running node, or a join whose predecessors are finished and which nobody recorded |
| `Endings.FatalFailureEndsTheRun` | daemon/dispatch.go:584-596 | in every execution a failure that must not happen has ended the run once its call has returned |
| `Endings.RecordedAsTheEdgesDemand` | daemon/dispatch.go:346-416 | in every execution a node gets its record once its predecessors are finished, Queued exactly if the edges into it call for it and Skipped otherwise |
| `Endings.FinishedOrCancelled` | engine/jobstore/memory.go:361-391 | in every execution a finished node was finished by a call that was started to, and has that call's outcome, or was skipped in a cascade, or is Cancelled |
| `Endings.CallWasStarted` | daemon/dispatch.go:151-262 | a call that has a node to finish was started for that node, with the outcome it carries |
| `Returning.ReturnedOnceIdle` | daemon/dispatch.go:151-262 | a node that a call of its own finished counts as returned as soon as no call for it is in flight |
| `Returning.JoinIsRecorded` | daemon/dispatch.go:186-262 | in every execution, if the last predecessor of a join was pending when it was finished and no call for it is in flight, the join has a record |
| `Endings.ReaperEndsFinishedRun` | daemon/dispatch.go:52-84 | should a run be left behind with everything finished, a reaper's check ends it as its records demand |
| `SoloReturns.EveryCallReturns` | daemon/dispatch.go:151-262 | in every schedule without end, whatever the other calls do, a call that always gets another turn returns: completion, switch-off, cancel or reaper |
| `SoloCalls.SoloCallIsPass` | daemon/dispatch.go:151-262 | the store operations of a completion or switch-off of a pending node, taken in a row by either path, are one `PassStep`, as the methods are |
| `SoloReturns.CallRunsAsPass` | daemon/dispatch.go:151-262 | and there is such a row from every state of the store, ending with the return of the call |
| `Returning.FatalFailureEndsIdleRun` | daemon/dispatch.go:584-596 | in every execution, once no call for a node that failed and must not is in flight, the run has ended |
| `InterleavedRuns.EveryScheduleMeetsFate` | daemon/dispatch.go:430-552 | fates hold under store-operation interleaving too |
| `InterleavedRuns.EveryScheduleMeetsOutcome` | daemon/dispatch.go:584-646 | so does the outcome of a run that ends on its records |
| `InterleavedRuns.EveryScheduleFailsOnFatalFailures` | daemon/dispatch.go:554-646 | in every execution a run that ends on its records failed if and only if a node that must not fail did |
| `InterleavedRuns.DeclinedBranchNeverRunsAnywhere` | daemon/dispatch.go:490-552 | so does exclusive routing, before and after the router finishes |
| `InterleavedRuns.ReleasedByLiveWiresAnywhere` | daemon/dispatch.go:430-552 | and so does release by live edges only, in terms of ports and policies |
| `Cancelling.OnlyDispatchAddsRecords` | daemon/cancel.go:90-103 | once the run record is flipped, transactional completions queue nothing: only a dispatch already past its check can add a record |
| `Cancelling.SweepFinishesTheRecorded` | daemon/cancel.go:104-135 | in every execution, when a cancel has swept, every node that was recorded at the flip is finished, whatever else is in flight; with which record, `SweepCancelsTheRest` and `CancelGoesThrough` say |
| `Endings.CancelGoesThrough` | daemon/cancel.go:104-135 | in every execution, once a cancel has ended a run and no sweep is in flight, the run is Cancelled and each node recorded then was finished by a call or is Cancelled; with no call in flight the one event published says so |
| `SoloReturns.SoloCancel` | daemon/cancel.go:44-156 | a cancel that nothing disturbs leaves a finished run as it is; any other becomes Cancelled with exactly its pending nodes, its finished nodes keep their records, and one event says so |
| `Endings.SweepCancelsTheRest` | daemon/cancel.go:104-135 | in every execution a cancelled run ends Cancelled, and when the sweep is over each node recorded at the flip was finished by a call, with that call's outcome, or is Cancelled |
| `Cancelling.EscapeHasCulprit` | daemon/cancel.go:90-135 | a node pending after the sweep was unrecorded at the flip and was queued by a call that was past its check at the flip |
| `Cancelling.SweepLeavesNothingPending` | daemon/cancel.go:104-135 | so if no call is past its check when the run record is flipped, every recorded node is terminal when the sweep ends, and stays so |
| `Cancelling.LateEnqueueEscapesSweep` | daemon/cancel.go:90-135 | if some call is one write away from queueing a node during the sweep, the sweep can end with that node queued |
| `Cancelling.EscapesExactlyIfReached` | daemon/cancel.go:90-135 | from the flip on, some continuation ends the sweep with a given node pending if and only if some continuation brings a call one write away from queueing it |
| `Counterexamples.SkipCascadeCanStrandJoin` | daemon/dispatchindex.go:85-107 | an execution, for any five node names, that ends idle with an open run and an unrecorded join all of whose predecessors are done |
| `Counterexamples.CancelCanLeaveNodeQueued` | daemon/cancel.go:90-135 | an execution whose cancel has swept everything and whose store holds a queued node |
| `TopSort.BuildAdjacency` | core/topsort.go:83-100 | in-degrees and successor lists of the declared arcs, duplicates counted, undeclared endpoints ignored |
| `TopSort.PopMin` | core/topsort.go:41-52 | what the heap's pop promises: a least element, and the others kept |
| `TopSort.StrLeIsByteOrder` | core/topsort.go:41-52 | ids are compared by the first byte that differs, and a prefix comes first |
| `TopSort.TopologicalOrder` | core/topsort.go:14-39 | succeeds if and only if the declared arcs have no cycle; the order lists every id once with every arc forward and is lexicographically least among all such orders |
| `TopSort.LexLeAntisymmetric` | core/topsort.go:18-20 | there is only one least order |
| `TopSort.GreedyIsLeast` | core/topsort.go:18-32 | always taking a least ready node gives the least order of all |
| `TopSort.StuckHasCycle` | core/topsort.go:34-37 | if nothing is ready and something is left, there is a cycle |
| `TopSort.OrderMakesRunnable` | core/topsort.go:14-39 | an order is the rank the dispatcher's theorems ask of a graph |
| `TopSort.ExecutionLayers` | core/topsort.go:54-81 | fails on exactly the cyclic graphs; otherwise layer k holds, ascending and once, exactly the nodes whose longest incoming path has k edges, and every node is in a layer |
| `TopSort.LayerIsLongestPath` | core/topsort.go:54-81 | a node's layer is the length of the longest path to it |
| `ValueSize.Approx` | core/valuesize.go:61-187 | the budgeted walk exceeds the budget exactly when the full size does or a non-nil value is visited at depth 64 or more, and is the full size otherwise, for every budget |
| `ValueSize.ApproxRef` | core/valuesize.go:129-138 | the same for a reference with its headers and inline value |
| `ValueSize.ApproxMap` | core/valuesize.go:152-162 | the same for a reflected map, whose keys are walked too |
| `ValueSize.ApproxStruct` | core/valuesize.go:168-183 | the same for a struct, whose hidden fields weigh a word |
| `Shapes.LeafWeights` | core/valuesize.go:61-77 | what contains nothing: a string weighs its length, a flag one byte, a number or what is not looked into eight, nothing nothing |
| `Shapes.TextsLikeItems` | core/valuesize.go:78-86 | a list of strings weighs what a plain list of them weighs |
| `Shapes.RefsLikeItems` | core/valuesize.go:116-124 | so does a list of references |
| `Shapes.RefsAsDeep` | core/valuesize.go:116-138 | and it is as deep, except exactly at the last level and if none of them carries anything |
| `Shapes.RefLikeItems` | core/valuesize.go:129-138 | a reference weighs its own strings and a list of what it carries, and is as deep as that list |
| `Shapes.PointerLikeItems` | core/valuesize.go:163-167 | a pointer weighs and is as deep as a list of its target |
| `Shapes.DictLikeMap` | core/valuesize.go:96-104 | a map by strings weighs what a map whose keys are those strings weighs |
| `Shapes.DictAsDeep` | core/valuesize.go:96-104 | and is as deep as a list of its values |
| `Shapes.MapLikeItems` | core/valuesize.go:152-162 | a map weighs what the list of its keys and values weighs |
| `Shapes.MapDepth` | core/valuesize.go:152-162 | and is as deep |
| `Shapes.StructLikeItems` | core/valuesize.go:168-183 | a struct weighs what the list of its open fields weighs and a word for each hidden one |
| `Shapes.StructDepth` | core/valuesize.go:168-183 | and is as deep as that list |
| `ValueSize.ApproxValueSize` | core/valuesize.go:57-59 | the same from depth zero |
| `ValueSize.VerdictIgnoresOrder` | core/valuesize.go:96-104 | two measurements of one value agree whatever order the maps anywhere inside it are iterated in |
| `ValueSize.TooDeepAt64` | core/valuesize.go:50-52 | a value nested 64 deep is too deep, and one nested less is not |
| `FlowStrings.StringsCharged` | core/valuesize.go:61-187 | a value weighs at least as much as all the strings in it |
| `ValueSize.ApproxGraphBytes` | core/valuesize.go:223-263 | the same promise for a whole flow document, every caller-supplied string charged |
| `ValueSize.FlowVerdictIgnoresOrder` | core/valuesize.go:223-263 | and its independence of the order of environments, parameters and the maps in them |
| `FlowStrings.EveryStringIsCharged` | core/valuesize.go:217-263 | a flow document is over the budget whenever the caller's strings in it are, identifiers, settings and trigger fields included |
| `GraphEdit.FreeId` | core/graphedit.go:285-308 | a generated id is always found and never taken |
| `EditMeaning.GeneratedIsValid` | core/graphedit.go:285-308 | a generated id is one the editor accepts if and only if its base is free or a number short enough makes it so; below ten million nodes it always is |
| `EditMeaning.FreeIdIsFirst` | core/graphedit.go:285-308 | a generated id is the base if free, and otherwise the base with the first number from 2 on that makes it free |
| `EditMeaning.DecimalMeans` | core/graphedit.go:303-306 | the number is the usual decimal one |
| `GraphEdit.TriedBound` | core/graphedit.go:303-306 | the search cannot try more candidates than there are ids |
| `GraphEdit.BaseName` | core/graphedit.go:285-302 | the base of a generated id is what follows the last dot or slash of the step, with an underscore for every other character, after "step_" if it does not begin with a letter, cut at 56 characters; it is always a valid id |
| `GraphEdit.FreeNodeID` | core/graphedit.go:285-308 | the search loop ends with that id |
| `GraphEdit.NodeIndex` | core/graphedit.go:273-280 | the first node of that id, or -1 if there is none |
| `GraphEdit.PickPort` | core/graphedit.go:242-271 | a named port is taken if the step has it and refused otherwise; unnamed, it is the first declared port, "out" or "in" where ports are unknown or dynamic, and refused if there is none |
| `GraphEdit.Retouch` | core/graphedit.go:118-157 | parameters are merged key by key or replaced, a null removes its key, and caption and switch change only if given |
| `GraphEdit.Editor.Connect` | core/graphedit.go:212-237 | connects the ports picked, once; fails on a missing end or port |
| `GraphEdit.Editor.Add` | core/graphedit.go:99-133 | appends a node of a known step under a valid, free id with its caption, switch and parameters, and wires it if asked to |
| `GraphEdit.Editor.Update` | core/graphedit.go:133-158 | changes the named node's caption, switch and parameters in place, or fails if there is none |
| `GraphEdit.Editor.Remove` | core/graphedit.go:159-175 | takes the node and every edge touching it away, in order, and counts the edges |
| `GraphEdit.Editor.Cut` | core/graphedit.go:178-194 | takes away exactly the matching edges, an empty port matching any, and fails if there is none |
| `GraphEdit.Editor.Apply` | core/graphedit.go:97-210 | one operation on the graph or on the flow's name, description and triggers, with its report and its error cases |
| `EditMeaning.AddMeans` | core/graphedit.go:99-132 | a node is refused exactly for an unknown step or a bad or taken id, or if it cannot be wired; otherwise it is appended, unplaced, with the given caption, switch and non-null parameters |
| `EditMeaning.AddAfterMeans` | core/graphedit.go:129-131 | adding after a node is adding and then connecting by first ports |
| `EditMeaning.UpdateMeans` | core/graphedit.go:133-158 | an update fails exactly if there is no such node; it changes the caption and switch given, sets, removes or replaces parameters key by key, and leaves everything else alone |
| `EditMeaning.RemoveMeans` | core/graphedit.go:159-175 | a removal fails exactly if there is no such node; it takes the node and exactly the edges at it away, the others kept in order |
| `EditMeaning.ConnectMeans` | core/graphedit.go:212-237 | connecting fails exactly if an end or its port is missing, and adds the wire at the end unless it is there |
| `EditMeaning.DisconnectMeans` | core/graphedit.go:178-194 | disconnecting fails exactly if nothing matches, and takes exactly the matching edges away |
| `EditMeaning.SetFlowMeans` | core/graphedit.go:195-205 | exactly the given fields of the flow change |
| `EditMeaning.BatchIsSequence` | core/graphedit.go:78-95 | a batch is its operations one after the other and fails if one does |
| `GraphEdit.OpKeepsWellFormed` | core/graphedit.go:97-210 | any successful operation on a graph with unique ids, no dangling edge and no wire twice leaves such a graph, and the report accounts for the change |
| `GraphEdit.BatchKeepsWellFormed` | core/graphedit.go:78-95 | so does any successful batch |
| `Placement.FreeRow` | core/graphedit.go:376-378 | the search down the column ends at the first free row: every row above it, from where it starts, is occupied |
| `Placement.PlaceNewNodes` | core/graphedit.go:319-381 | whatever the graph, the cards without a position, older ones first, are placed one at a time, each time the first whose sources all stand, at the first free place right of its first placed source or in a new row below everything; with unique ids every card gets a position, none that had one moves, each new card is at least 420 apart horizontally or 340 vertically from every other, and on acyclic graphs it is one column right of the source of its first incoming edge, or in the first column |
| `Placement.UpstreamPosition` | core/graphedit.go:384-394 | the position of the first placed source |
| `Placement.Anchor` | core/graphedit.go:365-375 | the search starts right of the first placed source, in its row, or in the first column in the highest row that is below every card |
| `Placement.Unplaced` | core/graphedit.go:326-337 | what is to be placed: older cards in node order, then the batch's own in its order |
| `Placement.Pick` | core/graphedit.go:356-364 | the first card whose sources all stand, or the first card if a cycle leaves none |
| `Rows.NewCardsAreInRow` | core/graphedit.go:319-381 | in the finished arrangement of an acyclic flow a new card stands in its first source's row or below places all taken by other cards, or in a row of its own below every older card |
| `Rows.InRowExactlyIfDistinct` | core/graphedit.go:319-381 | a batch does so whatever the flow if and only if it lists no id twice |
| `Placement.ListUpdated` | core/graphedit.go:88-92 | the updated nodes that were not added as well, ascending and once |
| `Placement.ApplyGraphOps` | core/graphedit.go:78-95 | all or nothing; the report lists exactly the updated nodes that were not added, ascending; on a well-formed graph the result is well-formed, nodes change by added minus removed, edges by connected minus disconnected, every node has a position, new cards overlap nothing and, on acyclic graphs, stand in their columns |
| `SessionCache.CachingSessionStore.Lookup` | auth/session_cache.go:77-93 | a fresh entry is returned, a stale one dropped, and the generation handed to the miss |
| `SessionCache.CachingSessionStore.PutLocked` | auth/session_cache.go:160-176 | at capacity stale entries go first and then all |
| `SessionCache.CachingSessionStore.Fill` | auth/session_cache.go:98-102 | a miss caches only if nothing was evicted since it began |
| `SessionCache.CachingSessionStore.Evict` | auth/session_cache.go:109-114 | the generation grows and exactly the targeted entries go |
| `SessionCache.SizeNeverExceedsMax` | auth/session_cache.go:160-176 | in every execution the cache stays within its bound |
| `SessionCache.SignedOutStaysOut` | auth/session_cache.go:128-152 | in every execution, once a delete or a subject revoke has succeeded, no GetSession that starts afterwards returns such a session, unless one is stored after the delete or a put that had stored one before it reaches the cache after the sign-out has returned |
| `SessionCache.LatePutBringsBack` | auth/session_cache.go:109-126 | a put that reaches the cache is returned by the next GetSession while it is fresh, so the exception is needed |
| `SessionCache.PutStraddlesSignOut` | auth/session_cache.go:109-152 | an execution, for every session and every sign-out it is subject to, in which a put straddles the sign-out and a later GetSession returns the session |
| `SessionCache.HitIsRecent` | auth/session_cache.go:77-104 | in every execution a hit has not expired, and on a read-filled entry it is a value the store held after the clock reading minus the TTL and not after the lookup |
| `CacheRuns.PutSteps` | auth/session_cache.go:120-127 | an undisturbed put stores the session and then caches it with the time of the clock; one the store refuses changes nothing |
| `CacheRuns.SignOutSteps` | auth/session_cache.go:128-152 | an undisturbed sign-out clears the cache, deletes exactly what it is for from the store, and clears the cache again |
| `CacheRuns.HitSteps` | auth/session_cache.go:77-93 | a lookup that finds a fresh entry answers from it without touching anything |
| `CacheRuns.WaitMakesStale` | auth/session_cache.go:77-93 | once its time is up an entry is not answered from, and the lookup drops it |
| `CacheRuns.HitHasSource` | auth/session_cache.go:77-126 | in every execution a hit is a session the store held within the TTL up to the lookup, or one whose put reached the cache within the TTL, and has not expired |
| `CacheRuns.LookupMeans` | auth/session_cache.go:77-93 | an entry answers exactly while it is younger than the TTL and not expired |
| `CacheRuns.PutIsFound` | auth/session_cache.go:160-176 | what is put is found until its time is up |
| `CacheRuns.PutMakesRoom` | auth/session_cache.go:160-176 | below the bound nothing is dropped, at it stale entries, and everything only if those do not suffice |
| `CacheRuns.EvictMeans` | auth/session_cache.go:106-114 | an eviction drops exactly the targeted entries, and a miss that began before it caches nothing |
| `CacheRuns.MissReadsTheStore` | auth/session_cache.go:94-104 | a miss answers with what the store holds |
| `EventBus.PgBus.constructor` | daemon/eventbus_pg.go:75-115 | starts with what is already spooled counted as seen |
| `EventBus.PgBus.SkipTo` | daemon/eventbus_pg.go:251-263 | marks one id, moves the cursor forward only, forgets what left the window |
| `EventBus.PgBus.DrainNew` | daemon/eventbus_pg.go:265-333 | fans out exactly the unseen well-formed rows of the answer in order and moves cursor and window; a failed query changes nothing |
| `EventBus.AtMostOnce` | daemon/eventbus_pg.go:39-42 | in every execution, with rows becoming visible in any order, no event id is fanned out twice |
| `EventBus.DrainMissesNothing` | daemon/eventbus_pg.go:265-333 | in every execution the next successful drain fans out, in id order, every visible unseen well-formed row of a watched run within 256 ids of the cursor; the exceptions are rows a notice of which was passed over in an earlier step and rows seen at the start |
| `EventBus.CursorIsHighest` | daemon/eventbus_pg.go:251-333 | the cursor never goes back: a notice takes it to its id if that is ahead, a drain to the highest unseen id it was answered |
| `EventBus.PassedOverForGood` | daemon/eventbus_pg.go:251-263 | in every execution an id that was passed over is never fanned out afterwards |
| `MirrorPusher.StrongerKeepsStrong` | daemon/gitmirror.go:148-155 | a merged trigger is strong exactly when one of the two is |
| `MirrorPusher.MergeKeepsPush` | daemon/gitmirror.go:135-155 | for every pair of triggers and every setting of the mirror, merging keeps a push that either would make if and only if it is not an empty trigger merged with a save on a mirror that does not push on save |
| `MirrorPusher.Pusher.Notify` | daemon/gitmirror.go:158-191 | arms a timer, or merges into the armed timer or the running push; nothing once stopped |
| `MirrorPusher.Pusher.BeginRun` | daemon/gitmirror.go:193-205 | takes the entry's trigger, or nothing if a stop removed the entry |
| `MirrorPusher.Pusher.EndRun` | daemon/gitmirror.go:213-229 | arms again if something came meanwhile, otherwise forgets the workspace |
| `MirrorPusher.Pusher.Stop` | daemon/gitmirror.go:314-331 | takes back every timer that has not fired, with its wait-group count, and forgets every workspace no push runs for |
| `MirrorPusher.OnePushAtATime` | daemon/gitmirror.go:193-229 | in every execution at most one queued push per workspace is in flight |
| `MirrorPusher.WaitGroupIsExact` | daemon/gitmirror.go:158-229 | in every execution the wait group counts exactly the armed timers and the callbacks that have not returned |
| `MirrorPusher.PublishIsNeverDowngraded` | daemon/gitmirror.go:135-155 | in every execution, until the stop, a strong notification has a timer, a callback or a dirty push to come, and a push started for it pushes whatever the mirror pushes on |
| `MirrorPusher.PushSettlesWhatIsOwed` | daemon/gitmirror.go:193-205 | a push that starts carries every strong notification there was |
| `PusherRuns.OwedSince` | daemon/gitmirror.go:158-191 | what counts as owed: from a notification other than a save on, until a push starts |
| `PusherRuns.NoNotificationIsLost` | daemon/gitmirror.go:158-229 | in every execution, after any notification, a save too, a push of its workspace is on its way until one starts or the pusher stops, and the one that starts is told something no mirror ignores unless it ignores the notification |
| `PusherRuns.OneTimer` | daemon/gitmirror.go:158-191 | in every execution a workspace has at most one timer or callback waiting |
| `PusherRuns.NothingStartsAfterStop` | daemon/gitmirror.go:314-331 | in every execution, once stopped, no timer is armed and no push starts |
| `McpGrants.TokenRoundTrip` | auth/mcpgrant.go:130-155 | a token gives its grant's id back if and only if the id is non-empty without an underscore and the secret non-empty |
| `McpGrants.GrantStore.Swap` | auth/mcpgrant.go:226-235 | replaces the grant only while its refresh token is the expected one |
| `McpGrants.GrantStore.RevokeSubject` | auth/mcpgrant.go:257-268 | removes exactly the subject's grants and counts them |
| `McpGrants.RefreshMCPGrant` | auth/mcpgrant.go:96-128 | rotates, revokes on replay or expiry, or refuses, as the stored grant demands |
| `McpGrants.StepsAreRefresh` | auth/mcpgrant.go:96-128 | the interleaved steps, taken in a row, are that refresh |
| `GrantRuns.IssueWorks` | auth/mcpgrant.go:78-94 | an approval stores one grant for its user with a working pair of tokens and touches no other |
| `GrantRuns.UndisturbedRefresh` | auth/mcpgrant.go:96-128 | the steps of a refresh that nothing disturbs, from the token presented to the answer, are one `RefreshMCPGrant` |
| `GrantRuns.IssuedTokensWork` | auth/mcpgrant.go:78-146 | a fresh grant's access token speaks for it for exactly an hour, and its refresh token rotates within thirty days and is expired after |
| `GrantRuns.RefreshRenews` | auth/mcpgrant.go:96-128 | a refresh in time gives new tokens for as long again, the old access token is dead and the old refresh token revokes the grant |
| `GrantRuns.RefreshMeans` | auth/mcpgrant.go:96-128 | which of the four outcomes a refresh has, and what each leaves of the grants |
| `McpGrants.RotatesAtMostOnce` | auth/mcpgrant.go:226-235 | in every execution no refresh token rotates its grant twice |
| `GrantRuns.OnlyOneRotates` | auth/mcpgrant.go:226-235 | in every execution, of all calls that present a refresh token only one ever rotates with it |
| `McpGrants.RetiredNeverWorks` | auth/mcpgrant.go:96-146 | in every execution a token a rotation replaced never authenticates or rotates again |
| `GrantRuns.ReplacedNeverWorks` | auth/mcpgrant.go:96-146 | in every execution, after a rotating step the tokens the grant had before it never authenticate or rotate again |
| `McpGrants.DeletedStaysDeleted` | auth/mcpgrant.go:226-242 | in every execution no racing swap revives a deleted grant |
| `GrantRuns.GoneForGood` | auth/mcpgrant.go:226-268 | in every execution a grant that was there and is gone never comes back |
| `GrantRuns.RevokeTakesAll` | auth/mcpgrant.go:236-268 | a revocation takes exactly the subject's grants away, a deletion exactly one |
| `McpGrants.ReplayRevokes` | auth/mcpgrant.go:105-109 | in every execution, if a call rotated a grant away from a refresh token and the grant still has the token it was then given, a replay of the old token ends with the grant gone for good |
| `DataKeys.DekAADInjective` | daemon/encrypted_secrets.go:105-107 | a wrapped key's additional data names one tenant |
| `DataKeys.OpensExactly` | daemon/encrypted_secrets.go:109-115 | a box opens under its own key with its own additional data, or with any if it was sealed with none, and under nothing else |
| `DataKeys.TagsDiffer` | daemon/encrypted_secrets.go:97-107 | a row and a wrapped key are never mistaken for each other |
| `DataKeys.SecretAADClash` | daemon/encrypted_secrets.go:97-103 | rows of two tenants with non-empty names can share their additional data if and only if one tenant followed by a NUL begins the other |
| `DataKeys.MovedRowStaysShut` | daemon/encrypted_secrets.go:97-115 | outside that case a bound row opens at its own place and nowhere else |
| `DataKeys.MemSecretsStore.SetWrappedDEK` | daemon/encrypted_secrets_store.go:139-153 | the first writer wins |
| `DataKeys.MemSecretsStore.ReplaceWrappedDEK` | daemon/encrypted_secrets_store.go:126-137 | replaces an existing key only |
| `DataKeys.EncryptedSecrets.DekFor` | daemon/encrypted_secrets.go:339-393 | the cached key, the stored key, the key of a rival that was faster, or a new one stored under the master key; the store and the cache afterwards |
| `DataKeys.EncryptedSecrets.Put` | daemon/encrypted_secrets.go:197-214 | seals the value with the tenant's key for its own row; refuses an empty tenant or name; the rows, the wrapped keys and the cache afterwards |
| `DataKeys.EncryptedSecrets.GetRaw` | daemon/encrypted_secrets.go:181-195 | opens the row with the tenant's key; the wrapped keys and the cache afterwards |
| `DataKeys.KeyIsStored` | daemon/encrypted_secrets.go:339-393 | the key a process comes to use is the one the store then wraps, caches stay true and no other tenant's key changes |
| `DataKeys.PutThenGet` | daemon/encrypted_secrets.go:181-214 | a value put by one process is read back by another on the same store, or by the same one, unless the reader has no key cached and its master key does not open the stored one |
| `DataKeys.EncryptedSecrets.RewrapDEKs` | daemon/encrypted_secrets.go:259-306 | wherever it is interrupted each wrapped key is as it was or bound to its tenant under the new master key, no data key changes and every key stays recoverable under the old or the new master key; it completes if and only if it is not interrupted and every key opens under one of the two, and then every key is so bound and rotated plus skipped is the number of tenants |
| `KeyRaces.KeyNeverChanges` | daemon/encrypted_secrets.go:339-393 | in every execution a tenant keeps the data key it first gets, through provisioning races and re-wraps |
| `KeyRaces.SameKeyEverywhere` | daemon/encrypted_secrets.go:339-393 | in every execution all processes use the same key per tenant |
| `KeyRaces.PutIsReadByAll` | daemon/encrypted_secrets.go:181-214 | in every execution a read that gets its key returns the value last put in the row it read, whichever process put it, and one that fails does so because the tenant's wrapped key did not open under the master key of its process |
| `KeyRaces.LastPutIsRead` | daemon/encrypted_secrets.go:181-214 | in every execution, after a step that stores a value and with none in between, every process can read, and reads that value or lacks the master key |
| `KeyRaces.AlwaysRecoverable` | daemon/encrypted_secrets.go:257-306 | in every execution with two master keys and re-wraps towards the new one, every data key is recoverable under one of them at every moment |
| `KeyRaces.StepsAreDekFor` | daemon/encrypted_secrets.go:339-393 | the racing steps of a call that nothing disturbs come by the key `DekFor` gives and leave the store and cache it leaves |
| `KeyRaces.StepsAreRacedDekFor` | daemon/encrypted_secrets.go:365-385 | and those of a call that another process beats to the provisioning are `DekFor` with that rival |
| `KeyRaces.StepsArePutAndGet` | daemon/encrypted_secrets.go:181-214 | a whole undisturbed call leaves the store and cache `Put` or `GetRaw` leaves, and a read comes to the same answer |
| `KeyRaces.StepsAreRewrap` | daemon/encrypted_secrets.go:259-306 | the steps of an undisturbed re-wrap bind the tenant's key under the new master key, or leave it alone if it does not open |
| `KeyRaces.UndisturbedPut` | daemon/encrypted_secrets.go:197-214 | a put from its start on stores the value sealed with the tenant's key for its place, or nothing without the key |
| `KeyRaces.UndisturbedGet` | daemon/encrypted_secrets.go:181-195 | a read from its start on opens the stored row for its place, or fails without the key |
| `KeyRaces.UndisturbedRewrap` | daemon/encrypted_secrets.go:259-306 | a re-wrap from its start on turns the named tenant's key and no other |

## Left out

- Parking, approvals, breakpoints, pausing and parent or child runs: a parked node publishes ports before its decision, so whole-run theorems assume it away; `ClassifyEdge` and `RunStore.Complete` keep its branches.
- Loop bodies: the owner index of loop bodies is not part of this model.
- Store errors in the dispatcher: every store operation answers; a worker's claim, a requeue and the loss of a claim are events or a field of the store, and how long a lease lasts is not modelled.
- Reaper: its completion check and its giving up on a run with nothing pending are events of the interleaved model; the wall-clock age it waits for, and records lost to retention, are not modelled.
- Reasons, skip codes, results beyond the set of emitted ports, scratch reclaiming, notifications, tracing and event payloads.
- The store without a transactional completion, and batch enqueueing: only the one-transaction and the complete-then-advance path are modelled.
- NoLostWakeUp: covers predecessors finished last by their own call; the last one finished by a cascade is `CascadeAtJoin`, and the exact condition `JoinRecordedExactlyIfWoken`.
- SweepLeavesNothingPending: a corollary for a flip with no call past its check; node by node the exact statement is `EscapesExactlyIfReached`.
- DispatchReady: that a pass records every join below a skip cascade is claimed for passes that are one step; for interleaved ones the exact condition is `JoinRecordedExactlyIfWoken`.
- PopMin: container/heap and sort.Strings stand in as a scan and an insertion sort with the promises the callers use.
- Approx: Go values are finite trees here; a cyclic value is one whose walk always reaches depth 64.
- Editor.Apply: values of parameters and triggers are opaque, and error texts are left out.
- PlaceNewNodes: apart from the order and the places, the arrangement is promised for unique ids, because with a repeated id the search for a card finds the first bearer, which may have a position already.
- SignedOutStaysOut: puts do not look at the eviction generation, so a put that straddles the sign-out is excepted and shown to matter by `PutStraddlesSignOut`; the store is taken to support revoking by subject, and the 64-bit wrap of the generation is not modelled.
- HitIsRecent: the clock is read before the lock is taken, so the interval ends at the lookup; it starts at the clock reading minus the TTL.
- DrainMissesNothing: malformed payloads, rows passed over while nobody watched their run and rows spooled before the start are the exceptions; the publisher's buffer, the flush and LISTEN/NOTIFY itself are not modelled.
- PublishIsNeverDowngraded: is about non-empty triggers; the empty string stands for no trigger in the code and every caller passes a constant (daemon/service.go:478, 513, 725, 1036, 1062, 1137, 1156); the push itself, its timeout and two workspaces whose keys coincide are not modelled.
- RefreshMCPGrant: hashes are represented by their tokens, constant-time comparison is equality, and the store's delete is taken to succeed; scopes, roles and display fields are left out.
- DekFor: AES-GCM is an ideal cipher and nonces are left out; tenant deletion, read auditing, scope resolution by name and sealed payloads are not modelled.
- Postgres schemas and SQL, HTTP and gRPC handlers, the engine, the scheduler, lints, flow generation, catalogue search, billing and erasure cascades: plumbing or easy members.
