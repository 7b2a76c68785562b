# Grafux-mcp: verified models of the stateful core

Grafux-mcp is an asyncio gateway that runs tools for callers: it pools remote connections, gates and retries
invocations, mirrors tool files from a bucket, resolves tool names, caches listings and streams progress events.
This project models those parts in Dafny and proves what they promise over every run, every input or every history.

| component | modules |
|---|---|
| remote connection pool, any number of tasks | `PoolModel`, `PoolSafety`, `PoolTheorems`, `PoolLimits`, `PoolEviction`, `PoolReconnect`, `PoolRegistry`, `PoolRuns` |
| the same pool without contention, as an LRU list | `Lru`, `LruHistory` |
| one invocation: retry loop, status row, events | `Invocation` |
| N invocations behind the semaphore, with cancellation | `InvocationGate`, `InvocationTheorems`, `InvocationRuns` |
| remote retries multiplied out, and backoff time | `RetryBudget` |
| ETag-aware mirror of the bucket | `Paths`, `Mirror`, `MirrorPass`, `MirrorTheorems`, `MirrorExactness`, `MirrorScope` |
| tool registry, name index, key resolution | `Text`, `ToolRegistry`, `ToolAccess` |
| in-process Redis: expiring store | `TtlStore` |
| in-process Redis: pub/sub, and the event stream | `EventStream` |
| invocations and event streams together | `StreamingRuns` |
| cached tool listing | `Discovery` |

## How the models are built

Concurrent parts are state machines. A step that cannot happen changes nothing, so every sequence of steps is a run,
and theorems quantify over all sequences. In the pool a step is what one task does between two suspension points
(`await`). In the invocations a step may cover several: the RUNNING write with the start notice, a route call with the
DONE write and the events that follow it, the last write with the error event. What happens inside such a step is one
of the outcomes it comes with (a write that raises, a cancellation before or after the commit), and its events reach
the bus one by one, interleaved with everything else, in `StreamingRuns`. Clocks, jitter, network and database outcomes,
identifiers and the order in which an event loop schedules tasks arrive as parameters of the steps. Code that updates
fields in place is a class (`Lru.Pool`, `Invocation.Run`, `Mirror.Syncer`, `ToolRegistry.Registry`,
`TtlStore.MemoryStore`, `EventStream.Broker`, `RetryBudget.Pooled`) whose methods are proved equal to functions on
values, and the theorems are about those functions.

* **Pool.** An `asyncio.Lock` reports unlocked between its release and the wake-up of its waiter, and eviction closes
  an entry without taking its lock; both gaps are in the model. A wrapper is identified with the entry that owns it, and is open with an SDK session or,
  without the SDK, in HTTP mode.
* **Invocation.** The DONE write is inside the `try`, so a transient failure of that write runs the tool again. A task
  cancellation after the DONE commit rewrites the status; one during backoff or in the semaphore writes nothing.
* **Mirror.** Local paths are resolved as the file system does it, `..` included, from a data directory that may be
  anywhere (`Paths.DATA_ROOT` is an unspecified constant). The bucket does not change between the listing and the downloads of one call. The orphan pass ranges
  over the whole data tree although the listing was filtered.

## What turned out false, and exactly when it holds

* A cancellation inside a disconnect leaves `connected` set on a closed wrapper; the flags are right throughout a run
  if and only if no such cancellation happens (`PoolTheorems.FlagsTrueExactlyWithoutTornClose`), and
  `PoolRuns.TornCloseIsReached` is a run of five events in which one does.
* Eviction can close a connection under a call in mid round trip, if and only if the evicting task can run and a call
  is queued for the entry with nobody at or before it stuck on a closed loop (`PoolEviction.EvictionDisturbsExactly`);
  `PoolRuns.EvictionCanDisturb` reaches such a state.
* The name index is right throughout a history if and only if no registration puts another display name under an
  existing key (`ToolRegistry.IndexAgreesExactly`); `ToolRegistry.SlashInNameBreaksIndex` is a family that does.
* The saved ETags are right throughout a history of syncs if and only if no call that does not save its cache makes a
  harmful download (`MirrorTheorems.CacheSoundExactly`); `MirrorExactness.FailedSaveLeavesStaleFile` shows the harm.
* The mirror is exact, and a repeated sync idle, if and only if the local keys have no part that is empty, `.` or `..`
  (`MirrorExactness.MirrorIsExactIffPlain`, `MirrorExactness.RepeatIsIdleIffPlain`): the orphan pass compares resolved
  paths with raw keys, so it deletes what it has just downloaded under any other key
  (`MirrorExactness.DeletedAgain`, `MirrorExactness.RoundaboutIsDeletedAgain`).
* `delete` counts expired entries that nobody has looked at (`TtlStore.DeleteCountIsExactly`,
  `TtlStore.LateDeleteCountsMore`).
* The listing cache key leaves out the category, so a listing without one is the full query if and only if the category
  of the listing that answers it covers the scope (`Discovery.ListingIsFullExactly`, `Discovery.CategoryPoisonsCache`).
  A discovery does not invalidate the listings of projects (`Discovery.ProjectListingMissesDiscover`), although the
  docstring of the discovery service says that the next listing picks the new tools up.

## Model

| member | source | states |
|---|---|---|
| `PoolSafety.ApplyKeeps` | app/core/protocol/connection_pool.py:83-197 | every step of every task keeps the lock, queue, entry and program-counter invariant |
| `PoolSafety.ReachableIsValid` | app/core/protocol/connection_pool.py:83-197 | that invariant holds after every sequence of events, for any capacity |
| `PoolTheorems.ExclusiveUse` | app/core/protocol/connection_pool.py:96-126 | in every interleaving at most one task opens, uses or breaks a wrapper as lock holder, a lock is locked exactly while a task is inside it, and an entry is pooled under one key only |
| `PoolTheorems.FlagStep` | app/core/protocol/connection_pool.py:97-110 | one event keeps `connected` equal to the wrapper being open if and only if it does not cancel a disconnect that still has its session |
| `PoolTheorems.FlagsTrueExactlyWithoutTornClose` | app/core/protocol/connection_pool.py:172-179 | the flags are right in all states of a run if and only if no event of the run is such a cancellation |
| `PoolTheorems.TornCloseLies` | app/core/protocol/connection_pool.py:172-179 | what such a cancellation leaves: a set flag on a wrapper that is not open |
| `PoolTheorems.AtomicRunIsOk` | app/core/protocol/connection_pool.py:97-110 | with atomic disconnects and before shutdown, every task in every reachable state has what it relies on |
| `PoolTheorems.CallsKeepTheirConnection` | app/core/protocol/connection_pool.py:97-155 | then a wrapper in a round trip is open on the loop of its own task, and no eviction is about to close it |
| `PoolLimits.SizeStep` | app/core/protocol/connection_pool.py:186-197 | an event grows a full pool only into one whose every entry is locked |
| `PoolLimits.SizeBound` | app/core/protocol/connection_pool.py:83-94 | the pool never exceeds the larger of the capacity and the most entries ever locked at once |
| `PoolLimits.CapacityKeepsSize` | app/core/protocol/connection_pool.py:88-94 | the entry built after an awaited capacity eviction takes the place of the evicted one |
| `PoolLimits.RegistryFreezesCallers` | app/core/protocol/connection_pool.py:85-94 | while a task stays inside the registry lock no other task starts a call on any entry |
| `PoolLimits.CallersOnlyLeave` | app/core/protocol/connection_pool.py:144-155 | over the whole time an eviction holds the registry lock the set of calls on an entry only shrinks |
| `PoolLimits.OnlyQueuedCallsAreDisturbed` | app/core/protocol/connection_pool.py:144-155 | a call that an eviction finds on an entry it had listed as unlocked was queued for that entry at that moment |
| `PoolEviction.EventKeepsQueues` | app/core/protocol/connection_pool.py:96-126 | while a task stays inside the registry lock an event changes only the place of its own task in the queues of the entries |
| `PoolEviction.EvictionMeetsCallExactly` | app/core/protocol/connection_pool.py:144-155 | with a task inside the registry lock and an entry that reports unlocked, some continuation inside that lock gets a call into a round trip on the entry if and only if a call is queued for it with nobody at or before it on a closed loop |
| `PoolEviction.EvictionDisturbsExactly` | app/core/protocol/connection_pool.py:186-197 | an eviction that is closing an unlocked entry can take the connection from a call in mid round trip if and only if its own task can run and such a call is queued |
| `PoolReconnect.RaiseExactly` | app/core/protocol/connection_pool.py:117-126 | an exception in a call: at the first attempt a reconnectable one leads to marking broken the entry pooled under the key, or to the second attempt if none is pooled or connected; any other, and any at the second attempt, ends the task with it |
| `PoolReconnect.BreakExactly` | app/core/protocol/connection_pool.py:166-179 | marking an entry broken leads to the second attempt, at once or after the disconnect |
| `PoolReconnect.CallAdvances` | app/core/protocol/connection_pool.py:114-126 | any event leaves a call where it is or takes it forward with the same key, past the first attempt only by a reconnectable error, to success only from its round trip |
| `PoolReconnect.OneReconnect` | app/core/protocol/connection_pool.py:114-126 | over every run a call goes through first attempt, marking and second attempt in that order, never a third, and one that ends with a reconnectable error was past its first attempt |
| `PoolRegistry.StartFetches` | app/core/protocol/connection_pool.py:83-94 | a call that finds the registry free: entries of closed loops go; it uses the pooled entry, or a new one if there is room or all are locked, or one for which some unlocked entry makes way |
| `PoolRegistry.WakeFetches` | app/core/protocol/connection_pool.py:83-94 | the same for a call that waited for the registry |
| `PoolRegistry.StartWaits` | app/core/protocol/connection_pool.py:85-85 | with the registry held or waited for, a newcomer goes to the end of its queue and changes nothing else |
| `PoolRegistry.StartSweeps` | app/core/protocol/connection_pool.py:144-155 | an idle sweep is about exactly the entries that are idle for too long and unlocked, drops those not connected and stops to disconnect one that is |
| `PoolRegistry.WakeSweeps` | app/core/protocol/connection_pool.py:144-155 | the same for a sweep that waited for the registry |
| `PoolRegistry.SweepGoesOn` | app/core/protocol/connection_pool.py:153-155 | after a disconnect its entry goes and the sweep goes on with the rest; when it is done all of them are gone and no other |
| `PoolRegistry.StartShutsDown` | app/core/protocol/connection_pool.py:157-162 | a shutdown stops to disconnect each connected entry |
| `PoolRegistry.ShutdownGoesOn` | app/core/protocol/connection_pool.py:157-162 | and when it is done nothing listed is connected and the pool is empty |
| `PoolRegistry.RoundTripIsStamped` | app/core/protocol/connection_pool.py:105-110 | a task that gets to its round trip has stamped the entry with the clock |
| `PoolRuns.CallQueues` | app/core/protocol/connection_pool.py:100-101 | a call whose entry is locked, or unlocked with a waiter, goes to the end of the queue of the entry |
| `PoolRuns.EvictionCanDisturb` | app/core/protocol/connection_pool.py:144-155 | five events from an empty pool reach a state in which it can |
| `PoolRuns.TornCloseIsReached` | app/core/protocol/connection_pool.py:172-179 | five events from an empty pool tear a close and leave the flag set on a wrapper that is not open |
| `Lru.TouchPrefix` | app/core/protocol/connection_pool.py:83-110 | the bounded list is the top of the unbounded stack of keys by last call |
| `Lru.HoldsMostRecentlyCalled` | app/core/protocol/connection_pool.py:186-197 | after any history of calls the pool holds exactly the most recently called keys, in order |
| `Lru.Pool.LeastRecentlyUsed` | app/core/protocol/connection_pool.py:190-195 | the minimum by time stamp is the last key of the list |
| `Lru.Pool.EvictToCapacity` | app/core/protocol/connection_pool.py:186-197 | a full pool loses exactly its last key |
| `Lru.Pool.Call` | app/core/protocol/connection_pool.py:83-119 | a call moves its key to the front, or enters it there in the place of the last |
| `Lru.Pool.EvictIdle` | app/core/protocol/connection_pool.py:144-155 | an idle sweep drops exactly a tail of the list, namely all entries idle for too long |
| `LruHistory.Replay` | app/core/protocol/connection_pool.py:83-155 | any history of calls and sweeps, run through the pool: it holds, in order, exactly the keys among the most recently called that no sweep has found idle since their last call |
| `Invocation.Decisive` | app/services/execution_service.py:339-393 | the first attempt that is flagged or does not lead to another; all before it lead to another |
| `Invocation.Run.MarkCancelled` | app/services/execution_service.py:465-474 | the cancelled write and exit, for a write that commits, raises or is interrupted |
| `Invocation.Run.MarkFailed` | app/services/execution_service.py:395-399 | the failed write, error event and error reply, likewise |
| `Invocation.Run.TryOnce` | app/services/execution_service.py:344-393 | writes, events and continuation of one attempt |
| `Invocation.Run.Execute` | app/services/execution_service.py:329-399 | the retry loop leaves exactly the trace that the closed form gives from the decisive attempt alone |
| `Invocation.ReplyMatchesStatus` | app/services/execution_service.py:329-399 | whenever the run returns, the last committed status is the one its reply reports |
| `Invocation.RetriesOnlyTransientFailures` | app/services/execution_service.py:383-393 | at most N+1 routes, each retry after a transient failure; an error reply carries the failure of the decisive attempt, which was not transient or was the last |
| `Invocation.RetriesExactly` | app/services/execution_service.py:44-48 | an attempt that fails with retries left leads to another route, if no cancellation comes first, if and only if the failure is a timeout, connection, OS or remote call error |
| `Invocation.FailsFast` | app/services/execution_service.py:387-399 | a first attempt that fails with anything else is the only route, and the run ends FAILED with it |
| `Invocation.OneFinalEvent` | app/services/execution_service.py:365-399 | exactly one final event, of the kind of the reply, and none if cancelled by the flag |
| `Invocation.StreamEndsBeforeAudit` | app/services/execution_service.py:365-374 | on success the audit entry is the only event after the final one |
| `Invocation.CancellationEdges` | app/services/execution_service.py:376-393 | the status left by a cancellation in backoff, by one after the DONE commit, and by an unserialisable result |
| `InvocationGate.StepKeepsPermits` | app/services/execution_service.py:329-399 | every step conserves permits, keeps the queue, and leaves no permit idle while a waiter has nobody to wake it |
| `InvocationTheorems.ReachableIsValid` | app/services/execution_service.py:108-162 | permits, queue, registry and every record are in order in all reachable states |
| `InvocationTheorems.PermitsAreConserved` | app/services/execution_service.py:103-106 | free permits plus holders equal the cap, routes in flight never exceed it, and every exit gives the permit back |
| `InvocationTheorems.OnlyHoldersAct` | app/services/execution_service.py:326-399 | statuses, events and routes come only from permit holders, in their own steps |
| `InvocationTheorems.InterleavedRunsAreSequential` | app/services/execution_service.py:329-399 | a finished run in any interleaving left exactly the trace of the sequential loop on the attempts it saw |
| `InvocationTheorems.FinishedRunsAreConsistent` | app/services/execution_service.py:329-399 | so its last status matches its reply, and it made at most N+1 routes |
| `InvocationTheorems.FinishedRunsPublishOneFinal` | app/services/execution_service.py:365-399 | in any interleaving a run that returned published exactly one final event, of the kind of its reply, and none if it gave way to the flag |
| `InvocationTheorems.FinishedRunsRetryExactly` | app/services/execution_service.py:380-393 | in any interleaving every attempt but the last failed with one of those four, and a last one that failed was the last allowed or failed with something else |
| `InvocationTheorems.FinishedRunsEndWithAudit` | app/services/execution_service.py:365-374 | in any interleaving the audit entry is the only event of a successful run after the final one |
| `InvocationTheorems.CancellationIsPrompt` | app/core/runtime/cancellation.py:24-45 | `cancel` returns True at most once, at most one route starts after that, and the registry holds exactly the ids between register and unregister |
| `InvocationRuns.EverySequentialRunHappens` | app/services/execution_service.py:326-399 | in every valid state with a free permit and nobody waiting, a new invocation can do exactly what the sequential loop does, for any surroundings |
| `InvocationRuns.NobodyOvertakes` | app/services/execution_service.py:329-329 | a newcomer takes a permit only if there is one and nobody is ahead; otherwise it goes to the end of the queue |
| `InvocationRuns.PermitsGoInOrder` | app/services/execution_service.py:329-329 | every step serves the waiters in the order in which they came |
| `InvocationRuns.CancelExactly` | app/core/runtime/cancellation.py:29-35 | `cancel` sets the flag exactly for a registered invocation not yet cancelled, and otherwise changes nothing |
| `InvocationRuns.CheckSeesTheFlag` | app/services/execution_service.py:340-342 | the next check after a successful `cancel` starts no route |
| `InvocationRuns.LateIsCounted` | app/services/execution_service.py:339-363 | the count of late routes grows exactly when a route starts after a successful `cancel` |
| `RetryBudget.Pooled.Connect` | app/core/protocol/mcp_client.py:25-53 | a session with the SDK, none without it, ConnectionError on any failure |
| `RetryBudget.Pooled.CallTool` | app/core/protocol/mcp_client.py:74-89 | session first, then HTTP on any failure; how many calls that makes |
| `RetryBudget.Pooled.AcquireAndCall` | app/core/protocol/connection_pool.py:97-119 | closing a connection of another loop, dialling if needed, then the call, with its exact cost |
| `RetryBudget.Pooled.PoolCallTool` | app/core/protocol/connection_pool.py:114-126 | one reconnect after a reconnectable failure, on the same entry or on one that has replaced it, with its exact cost |
| `RetryBudget.BackendCallsAreBounded` | app/services/execution_service.py:339-393 | a remote invocation makes at most (N+1)·2·2 backend calls |
| `RetryBudget.BoundIsReached` | app/core/protocol/connection_pool.py:114-126 | for every N some run makes exactly that many |
| `RetryBudget.UncutFailure` | app/core/protocol/connection_pool.py:117-126 | a failed route has used its reconnect if the first failure allowed one, and reports the last failure |
| `RetryBudget.ReconnectsExactly` | app/core/protocol/connection_pool.py:54-59 | a pooled call has a second use exactly after a connection error, an OS error, a timeout or a runtime error |
| `RetryBudget.RuntimeErrorEndsTheRun` | app/core/protocol/connection_pool.py:54-59 | a RuntimeError that survives the reconnect is not transient: its route call is the last of the run |
| `RetryBudget.BackoffIsBounded` | app/services/execution_service.py:51-53 | the pauses after m attempts lie between 2^m - 1 and 2^m - 1 + m/2 |
| `RetryBudget.RunBacksOffWithinBudget` | app/services/execution_service.py:383-393 | a run stays within those bounds for its own retries, and within the bound for N |
| `Paths.SplitAtMostJoinsRest` | app/core/runtime/cloud_syncer.py:228-229 | splitting with a limit is splitting fully and joining the rest |
| `Paths.LocalKeysAgree` | app/core/runtime/cloud_syncer.py:149-150 | the two local-key expressions agree if and only if the key is below `users` or has fewer than two slashes |
| `Paths.PlaceIsReal` | app/core/runtime/cloud_syncer.py:152 | wherever a key leads, `..` and absolute keys included, the path consists of real names |
| `Paths.PlaceOfPosix` | app/core/runtime/cloud_syncer.py:172-173 | a path inside the data directory survives writing it as text and reading it back |
| `Paths.PlainIsPosix` | app/core/runtime/cloud_syncer.py:150-173 | a local key whose file lies in the data directory is the text of its own path if and only if no part is empty, `.` or `..` |
| `Mirror.Listed` | app/core/runtime/cloud_syncer.py:119-122 | a listing has exactly the objects under the prefix, each as often as the bucket |
| `Mirror.ListedConcat` | app/core/runtime/cloud_syncer.py:119-122 | and in the order of the bucket |
| `Mirror.Syncer.PullObjects` | app/core/runtime/cloud_syncer.py:138-163 | the loop over the listing equals the fold, up to the object whose directory cannot be created |
| `Mirror.Syncer.DeleteOrphans` | app/core/runtime/cloud_syncer.py:165-177 | exactly the deletable files below a `tools` directory that no local key names are removed, and counted |
| `Mirror.Syncer.SyncAll` | app/core/runtime/cloud_syncer.py:103-195 | files, saved cache and report of the whole call, with a listing that raises, an empty one, and every fault of the pass |
| `Mirror.Syncer.SyncTool` | app/core/runtime/cloud_syncer.py:197-251 | likewise for one tool, including a listing that raises halfway |
| `MirrorScope.ItemsOfOne` | app/core/runtime/cloud_syncer.py:139-153 | `sync_all` is about an object exactly if its key does not end in a slash, contains `/tools/`, and contains the user and the project that were given |
| `MirrorScope.ToolItemsOfOne` | app/core/runtime/cloud_syncer.py:224-231 | `sync_tool` is about every listed object whose key does not end in a slash |
| `MirrorScope.ItemsConcat` | app/core/runtime/cloud_syncer.py:139-148 | in the order and as often as they are listed |
| `MirrorScope.OneItemExactly` | app/core/runtime/cloud_syncer.py:151-163 | an object is skipped exactly if its ETag is the cached one and something is found at its path; otherwise it stops the call, fails or is downloaded and cached |
| `MirrorScope.PullConcat` | app/core/runtime/cloud_syncer.py:139-163 | objects are dealt with one after the other, and none after one that stopped the call |
| `MirrorScope.OthersAreLeftAlone` | app/core/runtime/cloud_syncer.py:143-148 | whatever a call writes or counts comes from objects whose keys contain the user and the project that were given |
| `MirrorScope.BelowToolsExactly` | app/core/runtime/cloud_syncer.py:166-170 | the files of the orphan pass are those strictly below a directory named `tools` in the data directory |
| `MirrorScope.ToolPrefixExactly` | app/core/runtime/cloud_syncer.py:214-218 | the prefix of a tool: `users`, the user id, user, project, `tools`, the category if there is one, and the tool |
| `MirrorScope.ToolObjectsStayInTool` | app/core/runtime/cloud_syncer.py:214-230 | every plain object listed for a tool belongs strictly below the directory of that tool |
| `MirrorScope.TargetExactly` | app/core/runtime/cloud_syncer.py:127-130 | `clean_first` is about the directory of the user, or of the user's project |
| `MirrorScope.CleanFirstExactly` | app/core/runtime/cloud_syncer.py:127-132 | after a cleaning call what lies there came with the call, and files elsewhere, neither below `tools` nor at the place of an object in scope, are as before |
| `MirrorPass.PullEffect` | app/core/runtime/cloud_syncer.py:139-163 | a pass downloads exactly the objects not cached at its start, up to the one that stops it, and changes nothing else |
| `MirrorPass.EveryItemIsCounted` | app/core/runtime/cloud_syncer.py:154-163 | synced, skipped and failed add up to the objects in scope |
| `MirrorTheorems.SavedCallKeepsSound` | app/core/runtime/cloud_syncer.py:137-179 | a call that saves its cache keeps every cached ETag true of its file, whatever fails |
| `MirrorTheorems.CallSoundExactly` | app/core/runtime/cloud_syncer.py:137-179 | a call keeps the cache sound if and only if it saves it or makes only benign downloads |
| `MirrorTheorems.CacheSoundExactly` | app/core/runtime/cloud_syncer.py:127-242 | over every history of both calls a file whose key has a saved ETag holds the content with that ETag in every state, if and only if no call that does not save makes a harmful download |
| `MirrorTheorems.SparedIffPlain` | app/core/runtime/cloud_syncer.py:165-177 | the orphan pass spares the file of an object if and only if its local key is plain |
| `MirrorTheorems.UnsavedCallSoundExactly` | app/core/runtime/cloud_syncer.py:157-179 | without a save the old cache is sound if and only if each download had no saved ETag, the same content, or was deleted again |
| `MirrorExactness.HistoryKeepsReal` | app/core/runtime/cloud_syncer.py:150-159 | after every history the tree holds only paths made of real file names |
| `MirrorExactness.MirrorIsExactIffPlain` | app/core/runtime/cloud_syncer.py:124-192 | after an undisturbed sync only images of objects in scope remain below `tools`, and they are all there with their content if and only if their local keys are plain |
| `MirrorExactness.RepeatIsIdleIffPlain` | app/core/runtime/cloud_syncer.py:154-192 | a repeat on an unchanged bucket skips every object, deletes nothing and changes nothing, if and only if the local keys are plain |
| `MirrorExactness.EveryObjectIsCounted` | app/core/runtime/cloud_syncer.py:134-192 | the reported counts plus the logged failures make the number of objects in scope |
| `MirrorExactness.DeletedAgain` | app/core/runtime/cloud_syncer.py:149-179 | any object in scope that lies below `tools` under a key that is not plain is downloaded and deleted again, with success reported and its ETag kept |
| `MirrorExactness.RoundaboutIsDeletedAgain` | app/core/runtime/cloud_syncer.py:149-179 | such keys exist for every user id, directory and file name: a doubled slash, a `.` or a `..` before `tools` |
| `MirrorExactness.FirstSyncIsUndisturbed` | app/core/runtime/cloud_syncer.py:124-192 | the hypotheses of the two results above are met by a first sync of any one object, plain or not |
| `MirrorExactness.FailedSaveLeavesStaleFile` | app/core/runtime/cloud_syncer.py:58-64 | after a failed save, going back to the old version is skipped with success while the file holds the other content |
| `ToolRegistry.RegisterKeepsIndex` | app/core/runtime/plugin_loader.py:66-87 | one registration keeps the index equal to a full scan if and only if it does not rename an existing key |
| `ToolRegistry.KeyDeterminesName` | app/core/runtime/plugin_loader.py:67-72 | equal keys carry equal display names if these have no slash |
| `ToolRegistry.IndexAgreesAlways` | app/core/runtime/plugin_loader.py:66-87 | with slash-free names the index lists the keys of each name in insertion order after any registrations, re-registrations and clears |
| `ToolRegistry.IndexAgreesExactly` | app/core/runtime/plugin_loader.py:66-87 | with any names it does so throughout a history if and only if no registration renames a key |
| `ToolRegistry.SlashInNameBreaksIndex` | app/core/runtime/plugin_loader.py:67-86 | for every owned tool a second registration that takes over its key |
| `ToolRegistry.IndexResolvesLikeScan` | app/core/runtime/tool_executor.py:131-152 | resolving through the index finds what a full scan finds, for every caller |
| `ToolRegistry.NamedCallerIsNeverTurnedAway` | app/core/runtime/tool_executor.py:119-191 | with slash-free parts a caller with username and project reaches only its own or unowned tools, never the two errors |
| `ToolRegistry.ResolutionIsSafeAlways` | app/core/runtime/tool_executor.py:119-191 | both results for the registry after any history |
| `ToolRegistry.CategoryLeavesIndexNothing` | app/core/runtime/tool_executor.py:137-149 | with a category given, the index branch finds nothing the namespaced keys did not |
| `ToolRegistry.SlashInRequestIsRefused` | app/core/runtime/tool_executor.py:185-191 | a slash in the requested name does reach the Unauthorized error |
| `ToolRegistry.AccessExactly` | app/core/runtime/tool_executor.py:185-191 | the tool runs exactly if it has no owner or the caller gave exactly its user and project; Missing exactly for an owned tool and a caller lacking one of the two, Unauthorized exactly for one who differs |
| `ToolAccess.ResolveExactly` | app/core/runtime/tool_executor.py:119-152 | for every caller: the key with the category, then the one without, then the name itself, then the earliest registered tool of that display name that suits the caller |
| `ToolAccess.CallsAreAnsweredExactly` | app/core/runtime/tool_executor.py:119-191 | both after any history that renames no key |
| `ToolRegistry.Registry.Register` | app/core/runtime/plugin_loader.py:66-87 | the tables after a registration: the tool under its key at its old or last place, the key indexed once under the display name |
| `ToolRegistry.Registry.Clear` | app/core/runtime/plugin_loader.py:218-224 | both tables become empty |
| `ToolRegistry.Registry.Lookup` | app/core/runtime/tool_executor.py:119-191 | the three-stage lookup equals resolution, and its answer is spelled out for every tool and caller |
| `TtlStore.MemoryStore.Expired` | app/cache/redis_client.py:94-102 | looking at an entry removes it exactly when it has expired |
| `TtlStore.MemoryStore.GetValue` | app/cache/redis_client.py:104-107 | the value of a live entry, nothing otherwise |
| `TtlStore.MemoryStore.CacheSet` | app/cache/redis_client.py:205-216 | a time to live only if it is given and not 0 |
| `TtlStore.MemoryStore.DeleteKeys` | app/cache/redis_client.py:117-122 | the keys are gone, and each held one is counted once |
| `TtlStore.MemoryStore.ScanKeys` | app/cache/redis_client.py:124-129 | yields at least the matches live at the last clock reading and at most those live at the first, and loses no live entry |
| `TtlStore.MemoryStore.CacheDeletePattern` | app/cache/redis_client.py:238-245 | no live match is left, every other live entry is, and the result is the number of live matches |
| `TtlStore.LazyRefinesEager` | app/cache/redis_client.py:94-129 | for all operations at monotone times the lazy store shows what a map that forgets at once shows, but for the count of `delete` |
| `TtlStore.PutLastsExactly` | app/cache/redis_client.py:94-115 | after any history what is put is got back exactly until its time to live has passed, for ever without one |
| `TtlStore.DeleteCountIsExactly` | app/cache/redis_client.py:117-122 | that count is right if and only if no argument is an expired entry still held |
| `TtlStore.LateDeleteCountsMore` | app/cache/redis_client.py:117-122 | two operations after which it is not |
| `EventStream.Broker.Subscribe` | app/cache/redis_client.py:42-49 | a new empty queue joins the channel |
| `EventStream.Broker.Unsubscribe` | app/cache/redis_client.py:51-58 | the queue leaves the channel, and an emptied channel goes |
| `EventStream.Broker.Publish` | app/cache/redis_client.py:131-137 | every subscriber of the channel and nobody else gets the message; their number is returned |
| `EventStream.ReachableIsValid` | app/cache/redis_client.py:42-74 | in every interleaving each queue holds exactly what was sent and not taken, and channel sets hold exactly the open streams |
| `EventStream.StreamYieldsTheCut` | app/core/streaming/event_bus.py:55-98 | what a stream yields is a prefix of what its channel carried since it subscribed, cut after the first final event, and all of it once the final event is out |
| `EventStream.ClosedStreamsLeaveNothing` | app/core/streaming/event_bus.py:100-105 | an ended stream is in no channel set, and no channel set is empty |
| `EventStream.TakeExactly` | app/core/streaming/event_bus.py:83-98 | an open stream takes the next message in order, yields it if it decodes, and ends on a final one |
| `EventStream.StopExactly` | app/core/streaming/event_bus.py:100-105 | stopping closes the stream and yields nothing more |
| `EventStream.ReadingYieldsTheCut` | app/core/streaming/event_bus.py:74-98 | an open stream that is read on yields the whole cut of what its channel carried |
| `StreamingRuns.ChannelCarriesTheRun` | app/core/streaming/event_bus.py:27-53 | in every interleaving of runs, publishing and streams a channel carries to each subscriber the events of its run, in order, from the ones it missed to the ones that reached the bus |
| `StreamingRuns.SubscriberSeesItsRun` | app/core/streaming/event_bus.py:55-98 | a subscriber present from the start sees a prefix of the events of its run, cut after the first final one |
| `StreamingRuns.SubscriberNeverSeesAudit` | app/core/streaming/event_bus.py:95-98 | of a successful run it never receives the audit entry, and it has received everything else once it has the result |
| `StreamingRuns.PublishExactly` | app/core/streaming/event_bus.py:27-44 | the next event of a run reaches its channel, in order |
| `StreamingRuns.EverythingCanArrive` | app/core/streaming/event_bus.py:55-98 | a subscriber from the start that still listens can be brought everything its run has published, up to the final event |
| `Discovery.KeysAreInjective` | app/cache/keys.py:14-20 | different organisations and projects have different cache keys |
| `Discovery.OrgKeyText` | app/cache/keys.py:14-16 | the key of an organisation's listing |
| `Discovery.ProjectKeyText` | app/cache/keys.py:18-20 | the key of a project's listing |
| `Discovery.QueryExactly` | app/api/v1/discovery.py:54-60 | the query has, as often as the table, exactly the rows of the organisation, of the project or of none if one is asked for, and of the category if one is named |
| `Discovery.QueryConcat` | app/api/v1/discovery.py:54-63 | in the order of the table |
| `Discovery.ListTools` | app/api/v1/discovery.py:43-82 | cached listing if it is live and not empty, else the query, written back |
| `Discovery.LastFill` | app/api/v1/discovery.py:49-82 | told from the history alone: the listing whose answer is cached for a scope, made after the last discovery of its organisation |
| `Discovery.StoreHoldsFills` | app/api/v1/discovery.py:49-82 | in every history the store holds for a scope exactly what that listing got, and nothing if there is none |
| `Discovery.Source` | app/api/v1/discovery.py:43-82 | the listing that answers a request is of the same scope, younger than the time to live and, for an organisation, later than its last discovery |
| `Discovery.ListingIsItsSource` | app/api/v1/discovery.py:43-82 | over every history each listing is what its source asked of the database |
| `Discovery.ListingIsFullExactly` | app/api/v1/discovery.py:43-60 | over every history a listing without a category is the full query at its source if and only if the category of the source, if it named one, covers the scope |
| `Discovery.PlainListingIsRecent` | app/api/v1/discovery.py:43-82 | when no request named a category, by none or the empty one, every listing is the full query at its source |
| `Discovery.ListingRowsExactly` | app/api/v1/discovery.py:43-82 | over every history each row listed is a row of the table at the source, of the organisation asked for and of the project or of none; none is missing if the source named no category |
| `Discovery.EmptyListingIsCurrent` | app/api/v1/discovery.py:49-51 | an empty listing is its own source, so it is never out of date |
| `Discovery.CategoryPoisonsCache` | app/api/v1/discovery.py:43-60 | after a listing with a category, one without is right if and only if the category had no rows or covers the scope |
| `Discovery.ProjectListingMissesDiscover` | app/services/discovery_service.py:69-71 | a project's listing after a discovery shows the old rows, if there were any |

## Left out

- HTTP routes, WebSocket gateway, legacy endpoints, authentication, schemas and configuration: plumbing around the modelled parts.
- SQLAlchemy, Postgres and real Redis: status rows are a sequence of committed values, the tool table is a sequence of rows, and the cache is the in-process stand-in.
- MCP SDK, httpx, boto3, Supabase, E2B, Composio and device clients: their calls appear as outcomes; `sync_tool_from_supabase` is not modelled.
- Import and execution of plugins, editable code and diagnostics text; local tools merged into a listing.
- Threads racing `reload_plugins` or the syncer against callers: each registration, clear and sync call is one event.
- In the concurrent pool an eviction may take any unlocked entry; that it is the least recently used one is proved in the uncontended model. `list_tools` of the pool has the shape of `call_tool` and is not repeated.
- A wrapper without the SDK: its disconnect returns at once, and the model also has the runs in which it suspends. The theorems over all runs cover it; the runs in which an eviction disturbs a call need a session.
- A torn or failed `connect` that leaves a half-open transport behind: the wrapper counts as not open.
- The ETag cache file is not itself a target of a download, and symbolic links in the data tree are not modelled. ETags are compared without their quotes.
- `lookup_user_id`: the user id of a single-tool sync is a parameter.
- The match of `scan_iter` is the set of keys it accepts; `fnmatch` patterns are not interpreted.
- JSON is an encoding that round-trips, and a payload is an encoded event or text that does not decode; a result that cannot be encoded is the `Unserialisable` attempt.
- Deadlines of event streams: a stream may stop at any step, which covers every deadline; that it does not stop early is not stated.
