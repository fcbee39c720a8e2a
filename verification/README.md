# Verified model of lazily-go

lazily-go is a reactive library with a distribution layer. This project models its core in Dafny and proves what the
library is for: reads give what a computation from scratch gives, replicas converge, nothing acknowledged is lost,
encodings are faithful. Where the code falls short of one of these, it proves exactly when.

| area | modules | source |
|---|---|---|
| asynchronous graph | AsyncGraph, AsyncInvariant, AsyncSteps, AsyncFreshness, AsyncErrors, AsyncSwallow, AsyncWaiters, AsyncLoop | async_context.go |
| synchronous graph | SyncGraph, SyncInvariant, SyncPull, SyncCoherence, SyncRuns, SyncCareful, SyncDiamond, SyncOrder, SyncChain, SyncLoop | core.go |
| semantic tree | SemTree, SemTreeRuns, SemTreeObject | sem_tree.go |
| lossless tree | TreeOps, TreeConverge, TreeRuns, TreeReplica, TreeKeys, TreeRender, TreeEdits, TreeDeadSplits, TreeSplits | lossless_tree_crdt.go |
| reliable sync and outbox | ReliableSync, SyncDriver, Outbox, OutboxStores | reliable_sync.go, durable_outbox_store.go |
| keyed reconciliation | Lis, Reconcile, ReconcileMoves, Reconciler, ReconcileApply, ReconcileMap | collections.go, keyed_order.go |
| ingress | Ingress | ingress_core.go |
| canonical bytes | Canonical, CanonicalMeaning | replay.go |
| MessagePack | Msgpack, MsgpackTrip, MsgpackReader | msgpack_codec.go |
| sequence CRDT and clock | SeqCrdt, SeqRuns, SeqOrder, SeqObject | seq_crdt.go, hlc.go |
| CRDT plane | CrdtPlane, CrdtWrites, CrdtWorld, Frontier | distributed.go, crdt.go |
| command plane | CommandPlane | command_plane.go |
| latest durable projection | LatestDurable | latest_durable_projection_core.go |

Each area has a value-level state machine with invariants and theorems over all its runs. Where the source updates
objects in place there is also a class, and its methods, loops included, are proved to take the steps of that machine.
In the asynchronous graph these are the commands of the owner loop; what a compute goroutine does between two commands
is a step of the machine only.

How the source is represented:

- A compute closure is a deterministic read program: given the values read so far it names the next node to read or its
  result. In the asynchronous graph a command of the owner loop is one step, and so are the reads, waits, answers and
  completion of each compute goroutine; executions interleave them freely.
- An iteration over a Go map follows an arbitrary enumeration, which may change from one iteration to the next. Only
  `SyncDiamond.DiamondPull` and the results of `SyncOrder` fix one.
- Clocks, wall times, send results and stored frames are parameters.
- Integers are unbounded; the MessagePack ranges, widths and lengths are explicit. Strings are sequences of characters,
  MessagePack and canonical strings sequences of bytes.

Places where the code does not meet a property one might expect of it, each with a lemma:

- Refresh of a synchronous slot does not look at forceRecompute again after its dependency loop. When a guarded
  dependency is unchanged and hides the change of another one that it refreshed first, the slot keeps a stale value.
  The comment in recomputeNow (core.go:955-961) says that raising dependents to forced makes the walk independent of
  order; refresh clears that flag again in markClean. `SyncDiamond.DiamondPull` says exactly when this run is right,
  and `SyncOrder.UprightPull` that it always is in the other order. On any graph `SyncCareful.CarefulIsCoherent` shows
  that this branch is the only way to lose coherence and always loses it, `SyncCareful.CarefulPullIsRight` that a pull
  is right without it, and `SyncRuns.PullIsCoherent` for which slots that needs no looking. The `retest` field of the
  environment is false for the code as written; true stands for a refresh that tests the flag again.
- A compute of the asynchronous graph that swallows the error of a dependency can stay resolved with a value that is no
  longer the one its compute gives: `AsyncSwallow.SwallowedErrorGoesStale`. The step that makes this possible is a read
  that starts the failed dependency again while its error is still relied on, which drops the edges into it:
  `AsyncErrors.StepKeepsErrors` says that no other step does, `AsyncErrors.CarefulIsFresh` that without such a step every
  resolved slot is fresh, and `AsyncErrors.RestartThenWrite` exactly which slots a write after such a step leaves wrong.
- A key between a key and the same key padded with zeros does not exist, and the digit loop then overshoots:
  `TreeKeys.KeyBetweenExact`.
- Splitting a buried leaf brings its tail back to life: `TreeDeadSplits.SplitRenders` says exactly when that changes
  the document. Concurrent splits of a leaf diverge: `TreeSplits.ConcurrentSplits`.
- SourceMap.Reconcile need not reach the target order. It appends every new key, and it moves keys one by one to indexes
  that count keys which have not been moved yet: `ReconcileMap.FrontInsertMisses`, `ReconcileMap.MovesMiss`. The values
  always are those of the target, and `ReconcileMap.SourceMap.Reconcile` gives the exact condition for the order.
- Opening an ingress scope at a newer generation keeps the undrained window: `Ingress.OpenKeepsOldWindow`. Reconnecting
  a closed one at its own generation keeps the watermark of a window that is gone: `Ingress.ReviveLosesWindow`. The
  events that lose a window are exactly those of `Ingress.IntactIsCareful`.
- Two elements that one replica inserts between the same neighbours get the same position, and the order of the sequence
  is then not determined by its state: `SeqOrder.SamePlaceTwice`, with the exact condition in `SeqOrder.OrderIsDetermined`.
- The clock of a CRDT plane does not follow the stamps that arrive, so a write by a clock that is behind is dropped:
  `CrdtWrites.LateClockLosesWrite`, with the exact condition in `CrdtWrites.WriteTakesEffect`.

## Model

| member | source | states |
|---|---|---|
| `AsyncFreshness.SettledIsFresh` | async_context.go:833-1014 | Freshness, in every state of every execution with no batch open: a slot, resolved or failed, holds what its compute gives when run from scratch on the current sources and nothing else, as long as it belongs to a set of settled slots that rest on sources and one another and whose recorded errors are still the errors of the slots they came from. Computes may swallow errors, and nothing is asked of the rest of the graph. The other side is an evaluation relation that knows nothing of caches, tokens or waiters. |
| `AsyncFreshness.ResolvedIsFresh` | async_context.go:833-1014 | So a resolved slot is never stale if the computes it can reach pass errors on, whatever the other computes of the graph do. |
| `AsyncErrors.CarefulIsFresh` | async_context.go:407-448 | Every resolved slot of the graph is fresh, swallowing or not, in every execution that never starts a failed slot again while a resolved slot or a compute in flight rests on its error, directly or through other failed slots. |
| `AsyncErrors.StepKeepsErrors` | async_context.go:939-994 | The guard is exact: from a state in which every error that is relied on still stands, a step leads to such a state if and only if it does not start a failed slot that is relied on. |
| `AsyncErrors.CarefulIsIntact` | async_context.go:939-994 | Over a whole execution no error is lost if and only if every step obeys the guard. |
| `AsyncErrors.RestartThenWrite` | async_context.go:407-448 | What a lost error costs, on every graph: after starting a failed slot again and writing a source, a slot that was resolved can only be wrong if the recorded edges lead to it from that source and every way there enters the failed slot through something that slot had read. Such a slot stays resolved, and is wrong exactly when the write changes what its compute gives. |
| `AsyncErrors.UnreachedIsFresh` | async_context.go:833-935 | Tracking is complete: a write that does not reach a resolved slot along recorded edges does not change what its compute gives. |
| `AsyncWaiters.NoLostWaiter` | async_context.go:407-471 | A read of a slot that is not resolved, from outside or from a compute, gets a waiter nobody has, and in every later state that waiter is registered with its slot or holds an answer, until its owner takes the answer, gives up or is cancelled. The answer is what the slot settled on at that moment, or says that it was invalidated at that moment. |
| `AsyncWaiters.WaiterIsServed` | async_context.go:957-1014 | The same for any waiter from any state in which it is registered; an answer in a channel is never overwritten. |
| `AsyncWaiters.WaitersAreWatched` | async_context.go:407-471 | In every state a registered waiter sits in exactly one slot, that slot has a live compute in flight, the channel is empty, no slot has two live computes, and a compute that waits is registered or answered. |
| `AsyncWaiters.LateCompletionIsDiscarded` | async_context.go:980-985 | Once a compute has been replaced or cancelled, its completion changes nothing but its own record, however late it arrives and whatever has happened since. |
| `AsyncWaiters.TokenStaysReplaced` | async_context.go:939-978 | A token that is not, or no longer, the one of a slot never becomes it again. |
| `AsyncFreshness.CachedEvaluation` | async_context.go:980-1006 | The traces cached in such a set make up a from-scratch evaluation that ends in the value or the error of the slot. |
| `AsyncFreshness.GivesOneOutcome` | async_context.go:489-526 | Evaluating a slot from scratch has at most one outcome. |
| `AsyncSwallow.SwallowedErrorGoesStale` | async_context.go:939-994 | For any two values there is a graph and an execution that end with a slot resolved to the first while its compute gives the second; so one of its steps started a failed slot that was relied on. |
| `AsyncSteps.StepKeeps` | async_context.go:833-1014 | Every enabled step of the owner loop or of a compute keeps the invariant on slots, edges, tokens, waiters and mail. |
| `AsyncSteps.ReachableInv` | async_context.go:755-776 | The invariant holds in every state of every execution. |
| `AsyncSteps.StepKeepsCaches` | async_context.go:980-1006 | Every step keeps: a settled slot holds what its compute makes of the recorded reads, and the values read from slots were cached earlier. |
| `AsyncSteps.ReachableCaches` | async_context.go:980-1006 | The same in every state of every execution. |
| `AsyncSteps.PropagateKeeps` | async_context.go:874-935 | Propagation from the written sources restores the invariant a write has broken. |
| `AsyncLoop.PropagateTwice` | async_context.go:1108-1121 | Propagating queued roots one after the other, in any order, is one propagation from all of them. |
| `AsyncLoop.ConsumeTwice` | async_context.go:874-935 | Consuming the edges of two sets of nodes in two rounds is consuming them at once. |
| `AsyncLoop.InvGraphOk` | async_context.go:755-776 | Every reachable state is one the commands of the owner loop accept; each of them keeps it so. |
| `AsyncLoop.AsyncContext.Propagate` | async_context.go:874-935 | The stack walk that consumes reverse edges reaches exactly the set-level propagation from its root. |
| `AsyncLoop.AsyncContext.InvalidateSlot` | async_context.go:957-978 | Bumps, clears and supersedes one slot and tells every waiter of it. |
| `AsyncLoop.AsyncContext.Set` | async_context.go:248-259 | Nothing for an equal value; otherwise the write propagates at once or is queued inside a batch. |
| `AsyncLoop.AsyncContext.BatchEnd` | async_context.go:1112-1121 | The outermost exit propagates all queued roots, whatever the order it takes them in. |
| `AsyncLoop.AsyncContext.SpawnCompute` | async_context.go:939-955 | Takes a fresh token, drops the old edges on both sides and starts a run. |
| `AsyncLoop.AsyncContext.GetCommand` | async_context.go:407-448 | Answers from the cache exactly when the slot is resolved; otherwise registers a waiter and leaves a compute in flight. |
| `AsyncLoop.AsyncContext.CancelGet` | async_context.go:171-178 | The loop that looks for the waiter cuts out its first occurrence, or nothing. |
| `AsyncLoop.AsyncContext.TrackDep` | async_context.go:833-852 | For a slot in flight the edge is there in both directions afterwards, and no other edge has changed. |
| `AsyncLoop.AsyncContext.OnComplete` | async_context.go:980-1006 | The identity gate and the publication to every waiter are the completion step of the state machine. |
| `AsyncLoop.AsyncContext.DeliverAll` | async_context.go:1008-1014 | Every waiter of the list is answered. |
| `SyncRuns.PullIsCoherent` | core.go:866-964 | After any run of writes, batches and pulls, a pull outside a batch returns the from-scratch value of every slot whose reads, directly and indirectly, stay among slots that read no two nodes one of which can hide a change of the other behind a guard; the rest of the graph does not matter. For a refresh that looks at forceRecompute again after its loop this is every slot of every graph. |
| `SyncCareful.CarefulIsCoherent` | core.go:890-919 | The failing branch of refresh, exactly, on every graph and for every run: in all states of the run every current slot has read only values that its current dependencies still hold, if and only if no pull of the run cleans a slot as unchanged after a dependency loop that gave one of its dependencies another value. |
| `SyncCareful.CarefulPullIsRight` | core.go:890-919 | So if no pull so far, nor this one, takes that branch, the pull returns the from-scratch value, whatever the graph; in the strict reading the branch is to clean a slot whose forceRecompute is set after the loop. |
| `SyncOrder.BottomUpPullIsRight` | core.go:890-919 | On every graph every pull is right if the map iterations visit a node after what it depends on. |
| `SyncOrder.UprightPull` | core.go:890-919 | The run on which the diamond can go wrong is right for all functions and inputs in the other order: the outcome of refresh depends on the order of a map iteration. |
| `SyncOrder.QuietKeeps` | core.go:890-964 | A refresh that reports no change of a slot that held a value has not changed it. |
| `SyncDiamond.DiamondPull` | core.go:890-919 | Refresh as written on the guarded diamond, for all functions and all pairs of distinct inputs: the pull after the write is right if and only if the inner slot does not change, or the middle one does, or the result stays the same. |
| `SyncChain.WriteThenPull` | core.go:890-964 | After a write below a current chain, pulling link i runs the computes from the bottom up to the first link whose value did not change, each once and in that order, and no others. |
| `SyncChain.ChainRuns` | core.go:890-919 | The same for any chain of stale links with a forced bottom. |
| `SyncRuns.UnguardedIsSound` | core.go:838-846 | A closed set of unguarded slots is one the coherence theorem covers, whatever its shape. |
| `SyncRuns.IndependentReadsAreSound` | core.go:1103-1107 | So is a slot that reads no two nodes one of which depends on the other. |
| `SyncRuns.CachedIsEval` | core.go:990-1000 | A current slot of such a set holds its from-scratch value. |
| `SyncRuns.PullIsEval` | core.go:890-919 | A pull of a slot of such a set, in any graph that satisfies the invariant, returns its from-scratch value. |
| `SyncRuns.StepOk` | core.go:676-710 | Writes, batch entry and exit and pulls keep the invariant of the graph at rest. |
| `SyncRuns.RunsAreQuiescent` | core.go:676-710 | The invariant holds in every state of every run. |
| `SyncCoherence.RefreshOk` | core.go:890-919 | On every graph, refresh leaves the slot current, keeps the invariant, touches no current slot and none above but for flags, and what it forces while it reports no change reads a node it can hide. |
| `SyncCoherence.RecomputeOk` | core.go:933-964 | The same for a forced recompute, in the middle of any number of unfinished ones. |
| `SyncCoherence.GetViaOk` | core.go:866-888 | A tracked read in the middle of a compute returns a current value and keeps the reads already done valid. |
| `SyncInvariant.MarkDependentsMeans` | core.go:189-256 | The mark walk leaves no dependent of a stale slot fresh, although it stops at slots already marked, and touches flags only. |
| `SyncInvariant.MarkDependentsForces` | core.go:208-220 | Exactly the direct readers of the changed node become forced. |
| `SyncInvariant.MarkDependentsSpares` | core.go:222-256 | When everything above is already stale no current slot loses its cache. |
| `SyncLoop.Context.WalkCone` | core.go:222-256 | The frontier loop over an explicit stack is the specified walk. |
| `SyncLoop.Context.ForceDependents` | core.go:208-220 | Marks the direct readers forced and everything above them dirty. |
| `SyncLoop.Context.Pull` | core.go:890-919 | The recursive refresh computes the specified graph and change flag, and leaves a value. |
| `SyncLoop.Context.PullAll` | core.go:904-910 | The dependency loop, which goes on after a change. |
| `SyncLoop.Context.Conclude` | core.go:910-919 | Keeps the value or recomputes, on the change flag of the loop alone. |
| `SyncLoop.Context.RecomputeNow` | core.go:933-964 | Detaches, runs the compute, publishes and marks the readers of a changed value. |
| `SyncLoop.Context.RunBody` | core.go:614-645 | The compute closure, reading through the tracking view until it is done. |
| `SyncLoop.Context.ReadVia` | core.go:866-888 | Tracks the edge, then pulls. |
| `SyncLoop.Context.Assign` | core.go:1064-1076 | Nothing for an equal value; otherwise queue in a batch, mark outside one. |
| `SyncLoop.Context.FinishBatch` | core.go:676-685 | Only the outermost exit flushes. |
| `SyncLoop.Context.FlushAll` | core.go:696-710 | Marks the dependents of every queued source, in any order. |
| `SemTreeRuns.NodeValueIsFold` | sem_tree.go:129-170 | After any run of value edits, child removals and reads, reading a node gives the recursive fold of the tree as it stands. |
| `SemTreeRuns.EditRerunsAncestors` | sem_tree.go:129-159 | After an edit of one value on a tree whose root is current, reading any ancestor runs the node and its ancestors bottom up, up to the first whose fold stays the same, and nothing else. |
| `SemTreeRuns.LooseEditRerunsNothing` | sem_tree.go:129-159 | After an edit of a node that is not connected to a current root, reading the root runs nothing. |
| `SemTreeRuns.BuiltFold` | sem_tree.go:67-126 | The root of a tree just built folds to the fold of its spec. |
| `SemTreeRuns.EvalIsFold` | sem_tree.go:113-123 | From-scratch evaluation of the reactive graph of a tree is the recursive fold. |
| `SemTreeRuns.ApplyOk` | sem_tree.go:129-170 | Every edit and read, also of unknown ids, keeps the graph of the tree well formed. |
| `SemTree.BuildProper` | sem_tree.go:82-126 | Building yields a tree: children come before parents, nobody is listed twice, and only the root is listed by nobody. |
| `SemTree.TreeIsSound` | sem_tree.go:101-126 | The graph of a tree has no masked reads, although every fold is guarded. |
| `SemTree.TreeIsWired` | sem_tree.go:101-126 | Every read of a fold goes to an existing node of lower rank. |
| `SemTreeObject.Tree.SetValue` | sem_tree.go:129-136 | An error for an unknown id that changes nothing, otherwise a source write; the context stays a semantic tree with exact caches. |
| `SemTreeObject.Tree.RemoveChild` | sem_tree.go:140-154 | Filters the key list of the parent by the id of the child; an absent child still writes a fresh list; the context stays a semantic tree with exact caches. |
| `SemTreeObject.Tree.NodeValue` | sem_tree.go:163-170 | For a known node the recursive fold of the tree as it stands, whatever was cached, and nothing for an unknown one; the context stays a semantic tree with exact caches. |
| `SemTreeObject.Tree.Lookup` | sem_tree.go:129-131 | Finds the node with an id, or none. |
| `TreeRuns.Converges` | lossless_tree_crdt.go:1081-1205 | Replicas given the same set of create, tombstone and reorder ops, in any order, grouping and repetition, remote or their own, hold the same ops, the same node table, the same frontier and the same waiting ops. |
| `TreeRuns.DiffCatchesUp` | lossless_tree_crdt.go:1065-1092 | After applying what a diff against its frontier carries, in any order, the partner holds every op held here. |
| `TreeRuns.RunSettled` | lossless_tree_crdt.go:1081-1144 | After any run the table is the one the applied ops describe, the frontier names exactly those, and nothing in the buffer is ready. |
| `TreeRuns.UpdateOk` | lossless_tree_crdt.go:1081-1092 | One update keeps this, for any batch with duplicates, known ops and ops that come too early. |
| `TreeRuns.DrainOk` | lossless_tree_crdt.go:1094-1115 | Draining ends, loses no op and leaves nothing ready in the buffer. |
| `TreeRuns.ObserveIs` | lossless_tree_crdt.go:591-651 | Observing an id adds exactly that id to what the frontier contains. |
| `TreeConverge.ApplyIs` | lossless_tree_crdt.go:1153-1188 | Applying a ready op takes the table of a set of ops to the table of the set with that op. |
| `TreeConverge.TableUnique` | lossless_tree_crdt.go:1153-1188 | A set of ops with unique ids describes one table: parents from the create op, keys from the greatest reorder, burials from the least tombstone. |
| `TreeConverge.SaturatedUnique` | lossless_tree_crdt.go:1094-1134 | There is one set of ops that can all be applied in some order and leaves nothing else applicable. |
| `TreeSplits.ConcurrentSplits` | lossless_tree_crdt.go:1207-1242 | Two splits of one leaf given in opposite orders to replicas in the same state yield the same tree if and only if one of them is at or past the end of the text; the last text op always differs. |
| `TreeSplits.TwoSplits` | lossless_tree_crdt.go:1207-1242 | What two splits leave: the head up to the smaller offset and the two tails, the second cut out of what the first one left. |
| `TreeEdits.SplitKeepsRender` | lossless_tree_crdt.go:983-999 | Splitting a live leaf never changes the rendered document. |
| `TreeEdits.MergeKeepsRender` | lossless_tree_crdt.go:1003-1026 | Merging two adjacent live leaves never changes the rendered document. |
| `TreeEdits.SplitsAndMergesKeepRender` | lossless_tree_crdt.go:983-1026 | After any run of local edits no merge changes the rendered document, accepted or refused, and no split does unless it is of a buried leaf. |
| `TreeDeadSplits.SplitRenders` | lossless_tree_crdt.go:983-999 | Exactly when splitting a leaf keeps the rendered document, for every leaf the call accepts: the leaf is live, or the tail is empty, or the walk from the root does not come to its parent. Otherwise the document grows. |
| `TreeDeadSplits.DeadSplitAppends` | lossless_tree_crdt.go:983-999 | Splitting a buried leaf brings its tail back at the end of the text of its parent. |
| `TreeEdits.LocalRunOk` | lossless_tree_crdt.go:918-1026 | Over any run of local edits live siblings have distinct proper keys and every node lies below an earlier one. |
| `TreeEdits.PerformOk` | lossless_tree_crdt.go:918-1026 | Each local edit, refused or not, keeps this. |
| `TreeEdits.KeyAfterFresh` | lossless_tree_crdt.go:888-914 | The key minted for a position is new among the live children, also when the anchor is not among them. |
| `TreeKeys.KeyBetweenExact` | lossless_tree_crdt.go:142-186 | For byte strings, the minted key lies strictly between if and only if the bounds are in order and the upper one is not the lower one padded with zeros; it never ends in zero. |
| `TreeKeys.MintAbove` | lossless_tree_crdt.go:142-186 | With no upper bound the minted key is above the lower one. |
| `TreeKeys.MintKey` | lossless_tree_crdt.go:142-186 | The digit loop with its recursive tail computes the specified key. |
| `TreeKeys.BeforeTotal` | lossless_tree_crdt.go:93-119 | The byte order is total and antisymmetric. |
| `TreeKeys.BeforeTrans` | lossless_tree_crdt.go:93-119 | The byte order is transitive. |
| `TreeRender.OrderedAscends` | lossless_tree_crdt.go:787-808 | The live children come out in ascending key order. |
| `TreeRender.AscendingUnique` | lossless_tree_crdt.go:787-808 | A set of children has one ascending order. |
| `TreeRender.BoundFree` | lossless_tree_crdt.go:811-830 | The rendered text does not depend on the bound that makes the recursion stop. |
| `TreeOps.MissingHas` | lossless_tree_crdt.go:1065-1076 | A diff carries exactly the logged ops the other frontier does not contain. |
| `TreeOps.Collapse` | lossless_tree_crdt.go:591-607 | Swallowing the dots that follow the prefix changes no membership and leaves none of them behind. |
| `TreeOps.ObserveDot` | lossless_tree_crdt.go:591-607 | A range contains one more counter after observing it, and nothing else changes. |
| `TreeReplica.LosslessTree.ObserveId` | lossless_tree_crdt.go:591-651 | The frontier after observing an id. |
| `TreeReplica.LosslessTree.CollapseFrom` | lossless_tree_crdt.go:599-606 | The loop over the sparse dots. |
| `TreeReplica.LosslessTree.SweepBuffered` | lossless_tree_crdt.go:1097-1114 | One pass over the buffer, and whether it applied anything. |
| `TreeReplica.LosslessTree.DrainBuffered` | lossless_tree_crdt.go:1094-1115 | Passes until one applies nothing. |
| `TreeReplica.LosslessTree.Update` | lossless_tree_crdt.go:1081-1092 | Takes the ops in, advances the counter and drains. |
| `TreeReplica.LosslessTree.Diff` | lossless_tree_crdt.go:1065-1076 | The ops a frontier lacks, in log order. |
| `ReliableSync.ProjectionIsTrue` | reliable_sync.go:98-127 | Whatever honest frames arrive, in whatever order and however often, the projection is the state of the sender at the epoch of the receiver. |
| `ReliableSync.ReplayCatchesUp` | reliable_sync.go:98-119 | A replay of contiguous deltas from any point at or before the receiver takes it to the last of them without a request. |
| `ReliableSync.ContiguousApplies` | reliable_sync.go:98-119 | A contiguous run of deltas is applied to its end. |
| `ReliableSync.StaleIsIgnored` | reliable_sync.go:98-119 | Frames with a base below the epoch of the receiver change nothing. |
| `ReliableSync.RequestsRise` | reliable_sync.go:107-119 | Over any run of deltas, lost, repeated and reordered, each request asks for a strictly later epoch than the ones before: none repeats a request that is out, and a new one follows only after an advance. |
| `ReliableSync.ResyncCoordinator.IngestDelta` | reliable_sync.go:98-119 | Classifies a delta by its base and its epoch. |
| `SyncDriver.TickKeepsTruth` | reliable_sync.go:509-556 | A host that folds what every tick hands over shows the state of the sender at its epoch. |
| `SyncDriver.FoldingApplied` | reliable_sync.go:509-556 | Folding what a tick hands over is receiving what came in. |
| `SyncDriver.Driver.ReplayUnacked` | reliable_sync.go:477-489 | After a reconnect sends a prefix of what the outbox retains, all of it unless a send fails; only then it stalls and keeps the replay pending. |
| `SyncDriver.Driver.DrainPending` | reliable_sync.go:491-507 | No staged frame is lost: put and staged frames together stay the same sequence; a frame is sent only after it was put. |
| `SyncDriver.Driver.ReceiveAll` | reliable_sync.go:509-556 | Routes every inbound frame: acknowledgements raise the cursor of the peer, data goes through the coordinator. |
| `Outbox.ReplayIsUnacked` | durable_outbox_store.go:47-96 | In every state of every run of any number of handles, so after a stop between any two records, a handle replays in ascending order exactly the last frame put at each epoch above the stored cursor and above the cursor asked for. |
| `Outbox.ReplayRecovers` | durable_outbox_store.go:59-96 | With contiguous deltas and acknowledgements for applied epochs only, the replay of any handle in any state takes the receiver to the last epoch put. |
| `Outbox.StoresAgree` | durable_outbox_store.go:119-152 | In every run the journal and the memory store replay the same frames, although the journal folds deletions with a maximum and the memory store deletes from its map. |
| `Outbox.TakeOk` | durable_outbox_store.go:59-79 | Every step keeps: what is deleted lies at or below a stored cursor; the cursor never moves back. |
| `Outbox.RunOk` | durable_outbox_store.go:59-79 | The same in every state of every run. |
| `Outbox.MemoryAgrees` | durable_outbox_store.go:119-152 | The two stores hold the same cursor and the same frames above what was deleted. |
| `Outbox.ScanAgrees` | durable_outbox_store.go:131-144 | Scans of the two stores above what was deleted are equal. |
| `Outbox.EntriesAreLastPuts` | durable_outbox_store.go:258-286 | An epoch holds the last frame put at it, or nothing was put. |
| `Outbox.ScanIsTail` | durable_outbox_store.go:258-286 | Frames put in order are listed as a tail of what was put. |
| `OutboxStores.JournalStore.LoadCursor` | durable_outbox_store.go:288-296 | The greatest cursor recorded. |
| `OutboxStores.JournalStore.ScanAfter` | durable_outbox_store.go:258-286 | The fold over the records followed by the ascending listing. |
| `OutboxStores.StoreOutbox.AckedThrough` | durable_outbox_store.go:47-53 | Never below the stored cursor, nor below what it was. |
| `OutboxStores.StoreOutbox.AckThrough` | durable_outbox_store.go:69-79 | Stores the cursor before it deletes, as the two steps of the run. |
| `OutboxStores.StoreOutbox.ReplayFrom` | durable_outbox_store.go:82-96 | Lists above the greater of the two cursors. |
| `OutboxStores.StoreOutbox.RetainedEpochs` | durable_outbox_store.go:99-106 | The epochs of what a replay from the start would send, in order. |
| `ReconcileMoves.FewestMoves` | collections.go:308-371 | The edit list moves all common keys but the fixed ones, and no choice of common keys that keep their relative order leaves fewer to move. |
| `ReconcileMoves.OpsGiveTarget` | collections.go:308-371 | Read as final positions, the edit list and the prior sequence determine the order of the target. |
| `ReconcileMoves.UnmovedAreFixed` | collections.go:336-357 | The keys neither removed nor moved are exactly the fixed ones, in the order they have in both sequences. |
| `ReconcileMoves.FixedKeepOrder` | collections.go:336-346 | The fixed keys keep their relative order. |
| `ReconcileMoves.GoneIs` | collections.go:308-357 | A prior key survives in place if and only if it is fixed. |
| `ReconcileMoves.PutAtDiff` | collections.go:346-360 | The list puts a key at an index if and only if the key of the target there is new or not fixed. |
| `Lis.Longest` | collections.go:375-416 | The positions returned increase, carry increasing values, and no increasing subsequence is longer. |
| `Lis.NoLonger` | collections.go:375-416 | No increasing subsequence is longer than the number of piles. |
| `Lis.Search` | collections.go:386-394 | The binary search finds the first pile whose top is not smaller. |
| `Lis.Collect` | collections.go:407-410 | Following the back links yields one position per pile. |
| `Reconciler.ReconcileDiff` | collections.go:308-371 | For sequences with distinct keys, the edit list read as final positions gives the order of the target, applying it gives the values of the target, and no list that leaves the unmoved common keys in their relative order moves fewer. |
| `Reconciler.OpsGiveValues` | collections.go:308-371 | Removes, inserts and updates together turn the prior values into the values of the target. |
| `Reconcile.BuildCommon` | collections.go:334-342 | The loop that collects the common keys in target order with their prior indices. |
| `Reconcile.BuildPlaces` | collections.go:350-360 | The walk over the target that emits inserts and moves. |
| `ReconcileMap.SourceMap.Reconcile` | collections.go:210-233 | Diff, then op by op: for a target with distinct keys the values are those of the target, and the order is that of the target if and only if no key that stays follows a new one in the target and, whenever two keys are moved, everything before the first of them in the target is moved too or stood before the second one in the prior order. |
| `ReconcileMap.OpsReachTarget` | collections.go:210-233 | The same if and only if for the edit list of any increasing choice of fixed keys. |
| `ReconcileMap.FrontInsertMisses` | collections.go:221-231 | A new key in front of any nonempty map: the order of the target is missed. |
| `ReconcileMap.MovesMiss` | collections.go:221-231 | For any four keys there is a target without new keys that is missed, whichever longest choice the diff makes. |
| `ReconcileMap.SourceMap.Insert` | collections.go:187-201 | Appends a new key, or sets the value of a known one in place. |
| `ReconcileApply.WalkReachesTarget` | keyed_order.go:126-148 | Appending new keys and moving others to their target index, one after the other, ends with the target if and only if every turn appends or moves well; the keys that are settled are never put right later. |
| `ReconcileApply.GoodMoved` | keyed_order.go:126-148 | A move to the index in the target is right if and only if no key that is still to be moved stands before one that is dealt with. |
| `ReconcileApply.WhereMoversStand` | keyed_order.go:126-148 | Where such keys stand follows from the prior order: behind everything moved, before everything new, and as they stood to the fixed keys. |
| `ReconcileMap.SourceMap.Position` | keyed_order.go:86-94 | Finds the place of a key, or none. |
| `ReconcileMap.SourceMap.Remove` | keyed_order.go:108-124 | Takes a key and its value out and leaves the others in order. |
| `ReconcileMap.SourceMap.MoveTo` | keyed_order.go:126-199 | The rotation in place is taking the key out and putting it in at the clamped index. |
| `Ingress.MergesInOrder` | ingress_core.go:1224-1340 | Whatever the order and repetition of arrivals and whatever else happens to the scope, the payloads merged under the current generation are those of sequences 0, 1, ... up to the watermark, once each and in that order; what is held lies above the gap and within the reorder window. |
| `Ingress.WindowIsFold` | ingress_core.go:1098-1362 | For an associative merge, what left the window followed by the window folds to what a generation change carried over followed by the merged payloads, in every run and under every overflow policy. |
| `Ingress.DrainsFoldInOrder` | ingress_core.go:1098-1109 | In every run in which nothing was lost since the sequence space last began, the drained values and the window fold to the payloads 0 up to the watermark, in that order, under every overflow policy. |
| `Ingress.IntactIsCareful` | ingress_core.go:927-1109 | Nothing but drained values has left the window and no older window is mixed in, if and only if no event since the sequence space last began was an Open that moves the fence, a Close, or a DropOldest overflow over an undrained window. |
| `Ingress.StepIntact` | ingress_core.go:927-1109 | The same for one event from any state. |
| `Ingress.OpenKeepsOldWindow` | ingress_core.go:927-955 | In any run, under any merge and policy: opening a scope with an undrained window at a newer generation merges the first payload of that generation into the old window. |
| `Ingress.ReviveLosesWindow` | ingress_core.go:987-1043 | In any run: closing a scope with an undrained window and reconnecting it at the same or an older generation keeps the watermark without the window. Until the fence moves, what the window held is never drained and cannot be delivered again. |
| `Ingress.FlushOrders` | ingress_core.go:1314-1330 | Flushing held payloads closes the gap and restores the in-order account. |
| `Ingress.IngressScope.Admit` | ingress_core.go:1224-1340 | The decision and the new state of a scope, for every guard in its order. |
| `Ingress.IngressScope.Sequence` | ingress_core.go:1263-1340 | The decision from the duplicate check on: duplicate, held, blocked, refused or delivered. |
| `Ingress.IngressScope.MergeAndFlush` | ingress_core.go:1307-1340 | Merges the expected payload, then flushes, and says what was coalesced. |
| `Ingress.IngressScope.FlushHeld` | ingress_core.go:1314-1330 | The loop over held payloads. |
| `Ingress.IngressScope.Merge` | ingress_core.go:1344-1362 | Folds a payload into the window, or starts one. |
| `CanonicalMeaning.EncMeans` | replay.go:209-347 | Two values have the same canonical bytes if and only if they mean the same: sequences in order, sets up to order and repetition, maps up to order, kinds kept apart. |
| `CanonicalMeaning.SortForgetsOrder` | replay.go:308-347 | Sorting encodings forgets order and nothing else. |
| `CanonicalMeaning.OnceForgetsRepeats` | replay.go:308-327 | Sorting and deduplicating forgets order and repetition and nothing else. |
| `Canonical.FrameSplits` | replay.go:224-231 | A frame at the front of a byte string is determined by the string. |
| `Canonical.FramesSplit` | replay.go:224-231 | A concatenation of frames comes apart one way. |
| `Canonical.EncIsFrame` | replay.go:233-283 | Every encoding is one frame. |
| `Canonical.DecInjective` | replay.go:224-231 | Decimal lengths are unambiguous. |
| `CanonicalMeaning.Encode` | replay.go:233-283 | The recursive encoder computes the specified bytes. |
| `CanonicalMeaning.EncodeSequence` | replay.go:296-306 | The element loop. |
| `CanonicalMeaning.EncodeMembers` | replay.go:308-327 | The member loop with its check for known encodings. |
| `CanonicalMeaning.EncodeEntries` | replay.go:329-347 | The entry loop. |
| `MsgpackTrip.RoundTrip` | msgpack_codec.go:93-417 | For every tree that fits the format, parsing its encoding followed by anything yields the tree and leaves exactly that. |
| `MsgpackTrip.DecodeEncode` | msgpack_codec.go:93-264 | A whole frame decodes to the tree that was encoded. |
| `MsgpackTrip.EncDefined` | msgpack_codec.go:93-158 | Encoding succeeds if and only if every number is in range. |
| `MsgpackTrip.UintTrip` | msgpack_codec.go:181-197 | Every unsigned width decodes to the number. |
| `MsgpackTrip.NegativeTrip` | msgpack_codec.go:160-179 | Every signed width decodes to the number. |
| `MsgpackTrip.StrTrip` | msgpack_codec.go:199-213 | Every string header decodes to the string. |
| `Msgpack.BigRoundTrip` | msgpack_codec.go:283-293 | Big-endian bytes of any width read back the number. |
| `MsgpackReader.DecodeFrame` | msgpack_codec.go:249-264 | Decodes a frame and refuses trailing bytes. |
| `MsgpackReader.Reader.Take` | msgpack_codec.go:266-273 | Takes n bytes or refuses. |
| `MsgpackReader.Reader.Uint` | msgpack_codec.go:283-293 | The shift loop reads a big-endian number. |
| `MsgpackReader.Reader.Value` | msgpack_codec.go:295-374 | The recursive reader is the specified parser. |
| `MsgpackReader.Reader.ArrBody` | msgpack_codec.go:384-394 | The element loop. |
| `MsgpackReader.Reader.ObjBody` | msgpack_codec.go:396-417 | The entry loop; a key that is no string is refused, a repeated one overwrites. |
| `SeqRuns.EditsTakeEffect` | seq_crdt.go:296-357 | In every run of any number of replicas a local SetValue, MoveBetween or Remove of a known element takes effect and leaves the other two registers as they were. |
| `SeqRuns.MergesConverge` | seq_crdt.go:177-189 | In every run merging entries is commutative, associative, idempotent and absorbs a repeated merge. |
| `SeqOrder.LandsBetween` | seq_crdt.go:99-139 | In every run an element inserted or moved between two known ones gets a key strictly between theirs if and only if their keys are in that order and differ; with one known neighbour it always gets a key on the right side of it. |
| `SeqOrder.OrderIsDetermined` | seq_crdt.go:376-396 | The order of a sequence is determined by its state if and only if no two live elements have the same position. |
| `SeqOrder.SamePlaceTwice` | seq_crdt.go:222-237 | Two elements that one replica inserts between the same neighbours get the same position, so their order is not determined. |
| `SeqOrder.InsertKeepsOwnPlaces` | seq_crdt.go:222-237 | In every run, inserting a new element between neighbours of the listing with different keys, or at either end, puts it exactly there and keeps the order determined. |
| `SeqRuns.StepOk` | seq_crdt.go:218-460 | Inserts, edits, forks and merges keep: clocks dominate the stamps held, stamps are minted once, equal stamps mean equal registers. |
| `SeqRuns.RunOk` | seq_crdt.go:218-460 | The same in every state of every run. |
| `SeqCrdt.MergeSees` | seq_crdt.go:444-460 | After a merge the clock dominates every stamp of both sides, in whatever order the entries are observed. |
| `SeqObject.Sequence.Edit` | seq_crdt.go:222-358 | The four local edits, unknown ids included. |
| `SeqObject.Sequence.MergeFrom` | seq_crdt.go:444-460 | Observes every entry of the other side, then joins entry by entry. |
| `SeqObject.Sequence.ObserveEach` | seq_crdt.go:444-450 | The observation loop. |
| `SeqObject.Sequence.JoinEach` | seq_crdt.go:450-460 | The join loop. |
| `SeqCrdt.TickDominates` | hlc.go:86-96 | A tick is ahead of every stamp the clock was not behind, for any wall clock reading. |
| `SeqCrdt.ObserveDominates` | hlc.go:98-112 | An observation is ahead of those and of the observed stamp. |
| `SeqObject.Hlc.TickAt` | hlc.go:86-96 | The stamp is ahead of every stamp the clock was not behind. |
| `SeqObject.Hlc.ObserveAt` | hlc.go:98-112 | The stamp is ahead of those and of the observed one, in each case of the three wall times. |
| `CrdtPlane.PlanesConverge` | distributed.go:169-258 | Planes with the same families given the same set of ops, in any order, grouping and repetition, hold the same winner for every node, the same state and stamp under every family key, the same members of every family and the same epoch. |
| `CrdtPlane.IngestIs` | distributed.go:206-258 | After any sequence of ops the plane holds, per node and per family key, the op with the greatest stamp, and counts one epoch per family member. |
| `CrdtPlane.IngestOneIs` | distributed.go:206-251 | One op, new or repeated, takes the plane of a set of ops to that of the set with it. |
| `CrdtWorld.WorldConverges` | distributed.go:392-428 | In every run of any number of replicas that appear, write to their families, send one another any of their ops any number of times and take in ops from outside, two that hold the same ops agree on every winner, every family entry, the members of every family and the epoch. |
| `CrdtWorld.ExchangeConverges` | distributed.go:206-258 | From any state of any run, two replicas that send each other their logs agree. |
| `CrdtWorld.MoveOk` | distributed.go:392-428 | Every move keeps: a stamp names one op, and the clock of its writer is past it. Unique stamps are derived from the clocks. |
| `CrdtWrites.LocalIsIngest` | distributed.go:392-428 | A local write to a registered family is the ingest of the op it sends; a dominated write changes nothing but the clock. |
| `CrdtWrites.WriteTakesEffect` | distributed.go:392-416 | In every run a write sets its entry unless the stamp of the entry is ahead, and touches no other family entry. |
| `CrdtWrites.LateClockLosesWrite` | distributed.go:392-416 | A write by a clock that is behind a stamp that has arrived is dropped: the clock of a plane follows its own writes and the wall clock only. |
| `CrdtWrites.Writer.SetLww` | distributed.go:392-416 | The write with its minting loop, membership and log. |
| `CrdtPlane.PlaneState.Mint` | distributed.go:328-338 | Mints the next node id nobody uses. |
| `CrdtPlane.PlaneState.IngestKeyed` | distributed.go:354-389 | Resolves or mints the node of a family key and lets the greater stamp win. |
| `CrdtPlane.PlaneState.IngestOps` | distributed.go:206-251 | The loop over a batch, and the number of ops that were new. |
| `Frontier.ObservedIsGreatest` | crdt.go:86-94 | The frontier holds the greatest stamp observed of each peer. |
| `Frontier.FrontiersConverge` | crdt.go:86-104 | So it depends on the set of stamps observed only. |
| `Frontier.Watermark` | crdt.go:110-128 | Defined if and only if there are members and each was observed; then it is the least of their stamps. |
| `CommandPlane.ReconnectAgrees` | command_plane.go:810-858 | A projection rebuilt from the image of another agrees with it on every command after any further frames, including repeats of frames only the original had seen. |
| `CommandPlane.StatusMovesForward` | command_plane.go:689-808 | Over any run, whatever the frames, the status of a command only moves forward, and a terminal status, its reason and its receipt never change. |
| `CommandPlane.RecordedMeansChanged` | command_plane.go:689-808 | A call reports Recorded if and only if it changed the projection, apart from the conflict flag, which only a reported conflict raises. |
| `CommandPlane.RedeliveryIsNoOp` | command_plane.go:689-808 | Once a frame has been recorded it is a duplicate that changes nothing, however late it comes again and whatever was folded in between; a refused one changes nothing when it comes again at once. |
| `CommandPlane.FoldForward` | command_plane.go:689-808 | One frame moves a command forward or leaves it. |
| `CommandPlane.FoldInv` | command_plane.go:689-808 | Every frame keeps: folded events and receipts cannot advance their command again. |
| `CommandPlane.RebuiltFollows` | command_plane.go:810-858 | The rebuilt projection follows the original. |
| `CommandPlane.CommandProjection.SubmitCommand` | command_plane.go:689-706 | Creates an entry once. |
| `CommandPlane.CommandProjection.HandleEvent` | command_plane.go:708-730 | Duplicate, unknown, stale or folded by rank. |
| `CommandPlane.CommandProjection.CancelCommand` | command_plane.go:732-748 | Duplicate, unknown, stale or recorded; never terminal. |
| `CommandPlane.CommandProjection.ObserveReceipt` | command_plane.go:766-808 | Duplicate, unknown, stale, conflicting or terminal. |
| `CommandPlane.CommandProjection.Restore` | command_plane.go:810-825 | Rebuilds a fresh projection from an image, command by command in any order. |
| `LatestDurable.NewestIsKept` | latest_durable_projection_core.go:181-289 | In every run and for every key: durable is below in flight is below desired, and the newest accepted revision with its value is desired, in flight or durable. |
| `LatestDurable.HeldWasOffered` | latest_durable_projection_core.go:181-289 | In every run whatever is desired, in flight or durable for a key is a revision some producer offered for it, with the value it was offered with. |
| `LatestDurable.AcknowledgedRises` | latest_durable_projection_core.go:228-289 | Over any run the acknowledged epoch of a key only rises; a change is an acknowledgement in the current generation, for the attempt in flight, strictly above the one before. |
| `LatestDurable.DrainMakesDurable` | latest_durable_projection_core.go:211-246 | In every run, finishing the attempt in flight and then the next one makes the newest accepted revision durable and leaves nothing open. |
| `LatestDurable.TakeOk` | latest_durable_projection_core.go:181-289 | Every call keeps the invariant of the core, and generations never fall. |
| `LatestDurable.EntrySteps` | latest_durable_projection_core.go:181-289 | Every call keeps the order of one entry. |
| `LatestDurable.Projection.UpsertDesired` | latest_durable_projection_core.go:181-209 | Replaces a desired revision by a newer one, refuses old and conflicting ones. |
| `LatestDurable.Projection.ClaimNext` | latest_durable_projection_core.go:211-226 | Moves the desired revision in flight unless one is. |
| `LatestDurable.Projection.AckApplied` | latest_durable_projection_core.go:228-246 | Makes the revision in flight durable if the epoch matches. |
| `LatestDurable.Projection.FailRetryable` | latest_durable_projection_core.go:248-263 | Requeues the revision in flight unless a newer one is desired. |
| `LatestDurable.Projection.ReconnectAt` | latest_durable_projection_core.go:265-289 | Requeues or supersedes every revision in flight under a newer generation, and counts both. |

## Left out

- SyncRuns.PullIsCoherent: the condition on the graph is sufficient for refresh as written. The exact conditions are those of `SyncCareful.CarefulIsCoherent`, on every graph and over whole runs, and of `SyncDiamond.DiamondPull`, in terms of the functions of the diamond. A condition on the shape of the graph alone cannot be exact, since a hidden change may leave the value of the reader as it was.
- SyncCareful.CarefulPullIsRight: is one direction. A pull that takes the failing branch leaves a current slot with an outdated read, which `SyncCareful.CarefulIsCoherent` has both ways, but the value it returns may be right by chance of the functions.
- AsyncErrors.CarefulIsFresh: a restart that breaks the guard does not always leave a slot wrong, because the writes that follow may not change its value; `AsyncErrors.RestartThenWrite` is exact for one write after one restart. Which computes stay right under every sequence of restarts, writes and batches depends on the values they give for reads taken at different times, and is not characterised.
- TreeRuns.Converges: covers create, tombstone and reorder ops. Leaf edits carry deltas of a text CRDT that is not part of this model, and splits do not converge (`TreeSplits.ConcurrentSplits`).
- TreeEdits.LocalRunOk: is about the edits of one replica; live siblings whose keys have equal bytes from different peers are not covered.
- TreeSplits.ConcurrentSplits: the two replicas have nothing waiting in their buffers.
- SemTree.BuildProper: a spec is taken with its children as an ordered list; the choice between an explicit order and sorted keys, keys without a spec, and two nodes with one id are not modelled.
- Outbox.ReplayRecovers: assumes frames that are contiguous deltas; a snapshot may take the receiver back.
- SyncDriver.Driver.ReceiveAll: does not send; answers to snapshot requests, resync requests and owed acknowledgements, source errors and stall times are not modelled.
- CommandPlane.ReconnectAgrees: rebuilds a fresh projection; an image applied over newer state and the conflict flags are not modelled.
- TreeReplica.LosslessTree.Diff: lists the ops before they are sorted by id; the order does not matter to `TreeRuns.DiffCatchesUp`.
- MsgpackTrip.RoundTrip: is about trees of null, booleans, integers, strings, arrays and objects; the conversion between messages and such trees goes through JSON and is not part of this model.
- CanonicalMeaning.EncMeans: floats, structs and refused kinds are not modelled, nor is the digest of the bytes.
- Asynchronous graph: effects and the drain budget, disposal, merge policies, the set of computing slots.
- Synchronous graph: effects and eager slots, disposal and Clear, cycles, custom ripple predicates (a guard is equality), nodes created after the start, the cached-slot counter.
- Lossless tree: the index of children by parent, byte offsets into UTF-8 text, Fork, wire forms.
- Outbox: file input and output, torn lines, JSON frames, the error field.
- ReconcileMap.SourceMap.Reconcile: says nothing about the order for a target with a repeated key; reactive membership and order signals are not modelled.
- Collections other than the diff and SourceMap.Reconcile.
- Ingress: receipts, change sets, readiness, authority and retry views, and the map of scopes; one scope is modelled.
- Sequence CRDT: garbage collection, cloning under the same peer, moves relative to an anchor.
- CRDT plane: keys that do not parse, peers and the frontier inside the plane (`Frontier` models it on its own).
- Latest durable projection: change sets and snapshots.
- Relay and spill, topics, coordination, presence, resilience, rate shaping, foreign function interface, JSON codecs: easy members or thin wrappers around what is modelled.
