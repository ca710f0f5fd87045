# Lodestar routing gateway: a Dafny model

This project models the stateful core of the Lodestar gateway and its controllers and proves properties of
it that hold for every input, every run and every interleaving. `dafny verify dfyconfig.toml` checks all of
it. One file per component:

| file | component |
|---|---|
| `ScoreBook.dfy` | the two-mutex protocol that LMETRIC and MOONCAKE use to charge a pod and give the charge back |
| `Mooncake.dfy`, `LMetric.dfy` | the two pod-selection rules and their bookkeeping |
| `TraceWindows.dfy`, `RequestTrace.dfy` | request counting into windows that a ticker swaps, publishes and recycles |
| `Registry.dfy`, `PodArray.dfy`, `Snapshots.dfy` | the registry with a lazily rebuilt array, the per-deployment index that sorts it in place, and older snapshots that share the array |
| `PodCache.dfy` | the pod/model cache as a value |
| `PodTable.dfy`, `ModelTable.dfy`, `Store.dfy` | the cache as heap objects: entries with registries of their own, the spare entries, the informer handlers |
| `Adapter.dfy` | the model-adapter reconcile loop against a cluster that changes and calls that fail |
| `Tracker.dfy` | per-pod latency samples, pruned by age and summarised with percentiles |
| `Histogram.dfy` | the histogram percentile |
| `Routing.dfy` | the write-once routing target |
| `LogFrame.dfy` | the metric log line and its parser |
| `Collections.dfy` | sums over maps, Go's string order, `Option` |

How it is built. Concurrent code is a state machine whose steps are the atomic operations, lock acquisitions
and critical sections of the source; a theorem about it quantifies over all finite runs of steps. Code that
updates objects is a class whose methods are proved against functions on values, and the properties are
proved about those functions. Where a promised property turned out to be false of the code, the code is
modelled as it is and the exact condition under which the property holds is proved:

- The log line round trip fails if one token ends in `**` and the next is `latency_metrics`, because the parser
  cuts there, and if a name comes twice with different values, because the parser fills a dictionary. These are
  the only cases: `LogFrame.RoundTrip` is an equivalence for one line and `LogFrame.FileRoundTrip` for a whole file;
  `LogFrame.AmbiguousLine` and `LogFrame.RepeatedName` are examples, and `LogFrame.GeneratedLinesParse` shows that
  the gateway's own lines are safe.
- The adapter controller dereferences its Ready condition when it drops a stale pod. If the pod disappears
  after scheduling and before the adapter was ever ready, the condition does not exist and no reconcile writes
  anything again. `ModelAdapters.Converges` is an equivalence with that situation on one side;
  `ModelAdapters.WedgeReached` is a run that reaches it.
- `initDeployments` keys its sort by pod name; the slices are the deployments if and only if pods of one name
  share a deployment (`PodArrays.PodArray.InitDeployments`). `Indexes()` drops the first cut and repeats the last,
  so it lists every deployment if and only if all pods have one, whatever their names
  (`PodArrays.PodArray.Indexes`).
- An older `PodArray` shares its backing array with the current one, and indexing it sorts that array. However
  the sort orders the pods the registry stays right, if and only if the older one is no longer than the current
  one or every pod beyond the current ones has a larger class than every different current one
  (`Registries.PodRegistry.OlderSnapshotExact`); `Registries.StaleSnapshotSpoils` is a run on the heap after which
  the registry hands out an array that does not hold its pods.
- A routing context is reused while calls of its previous use may still be under way. Every result in the new use
  is the value set by the use's own first setter, if and only if no call of the old use is under way at the reuse
  (`RoutingContexts.ReuseExact`). Less is needed to rule out only double closes and sentinel results: no call may be
  between its swap and its close, blocked on the old channel, or about to reload (`RoutingContexts.ResetExact`).
  `RoutingContexts.DeleteReturnsSentinel` is an ordinary run that misses both: a reader released by `Delete` reloads
  after the reuse and returns the sentinel. `RoutingContexts.OtherUsesPod` misses the first only: a request is routed
  to the pod that another request chose.
- A charge is stranded on its pod forever if its record is overwritten or cleaned up before it is taken. Nothing
  is stranded if and only if every positive amount recorded is taken first, a condition on the order of the calls
  (`ScoreBook.NothingLost`); fresh request ids with clean-ups after the take are enough
  (`ScoreBook.FreshIdsSettle`), and `ScoreBook.EarlyCleanupStrands` is a run that strands.
- The histogram percentile is monotone in the percentile if and only if there is no sample, some bucket holds
  every sample, or the fullest bucket's answer is not positive (`Histograms.Monotone`); with positive bounds that
  leaves the full bucket (`Histograms.PositiveBounds`).

Assumptions about code outside the model. A trace pool hands out an object only when no caller that holds it still
has a request to count on it. Go's `sync.Pool` does not promise that. The assumption is as weak as it can be: a
reissue can make a returned call go uncounted if and only if it breaks it (`TraceWindows.ReissueExact`), and
`TraceWindows.PooledAndHeldReached` is a run to a state in which a reissue would.
Trace terms (nanosecond clock readings) are distinct. Each registry method and each lookup in the window map is
one step. The routing sentinel is private to its package, so no caller stores it, and a
routing context is deleted once per use. An LMETRIC completion names
the pod the request was scored on.

## Model

| member | source | states |
|---|---|---|
| `ScoreBook.Accounting` | pkg/utils/kvcache.go:3392-3519 | Under every interleaving of scorers, decrements, rollbacks and clean-ups, a pod's accumulator equals the sum of the records outstanding on it, the amounts goroutines carry between their two locks, and the amounts stranded by overwritten or deleted records; so it is never negative. |
| `ScoreBook.ClampUnreachable` | pkg/utils/kvcache.go:3450-3482 | The clamp to zero is dead code: a decrement always finds at least what it subtracts. |
| `ScoreBook.MutualExclusion` | pkg/utils/kvcache.go:3392-3519 | In every reachable state a step that changes an accumulator or a record is taken while no other goroutine is inside the lock that guards it. |
| `ScoreBook.NothingLost` | pkg/utils/kvcache.go:3392-3519 | After every run nothing is stranded on any pod if and only if every positive amount recorded is taken before its record is written again or cleaned up, read off the order of the steps alone. |
| `ScoreBook.FreshIdsSettle` | pkg/utils/kvcache.go:3485-3494 | If no request id is scored twice and between a record and a clean-up of its request there is a take, nothing is ever stranded. |
| `ScoreBook.EarlyCleanupStrands` | pkg/utils/kvcache.go:3485-3494 | For every positive amount a run from the start, with fresh ids, that ends with no call, no record and the amount still charged. |
| `ScoreBook.StrandedStays` | pkg/utils/kvcache.go:3392-3519 | What is stranded on a pod is never given back. |
| `ScoreBook.RollbackUndoesCharge` | pkg/utils/kvcache.go:3496-3519 | Whatever other goroutines did since, a completion or rollback takes exactly the charged amount off exactly the charged pod and leaves every other pod as it was. |
| `ScoreBook.NoDeadlock` | pkg/utils/kvcache.go:3551-3660 | In every reachable state with a call in progress some goroutine can take a step that moves its call forward, although the locks nest one way in scoring and are taken one after the other in the opposite order elsewhere. |
| `ScoreBook.FinishingReducesWork` | pkg/utils/kvcache.go:3551-3660 | Every such step strictly lowers a non-negative measure of the work left. |
| `ScoreBook.Drain` | pkg/utils/kvcache.go:3551-3660 | From every reachable state the calls in progress can all be finished without starting another, and then every accumulator is its records plus what was stranded. |
| `Mooncake.Book.Select` | pkg/utils/kvcache.go:3559-3586 | One pass in any map order returns the pod of positive speed for which (batch + virtual queue + 1) / speed is least, compared by cross-multiplying; of equal ones the pod with the shorter queue, and of those the first name in byte order; the empty string only without such a pod or if that is the winner. |
| `Mooncake.BestUnique` | pkg/utils/kvcache.go:3576-3585 | At most one pod is best, so the map's iteration order cannot show in the selection. |
| `Mooncake.BestIsFastest` | pkg/utils/kvcache.go:3565-3585 | Being best in the order of the code is exactly being first in those figures, which name neither the quotient nor the recursive comparison. |
| `Collections.LessExact` | pkg/utils/kvcache.go:3577-3577 | The comparison of names is byte order: at the first difference one name ends or has the smaller character. |
| `Mooncake.Book.Score` | pkg/utils/kvcache.go:3551-3600 | Adds one to that pod's virtual queue and records the pod for the request; without a candidate nothing changes. |
| `Mooncake.Book.Undo` | pkg/utils/kvcache.go:3605-3660 | Removes the request's record and takes one off exactly the recorded pod; does nothing for an unknown request. |
| `Mooncake.QueueCounts` | pkg/utils/kvcache.go:3551-3660 | When no request id is scored twice, under every interleaving a virtual queue is the number of requests recorded on the pod plus the number of calls caught between their two critical sections, hence never negative. |
| `Mooncake.GreedyBalance` | pkg/utils/kvcache.go:3563-3589 | After any score-only run with fixed batch sizes, for all pods p and q with a virtual request on p, p's queue over its speed is at most q's queue plus one over q's speed. |
| `Mooncake.QueuesHoldAccepted` | pkg/utils/kvcache.go:3588-3596 | The virtual queues of a score-only run add up to the number of accepted requests. |
| `Mooncake.GreedyBound` | pkg/utils/kvcache.go:3563-3589 | With idle engines, after N accepted requests over k pods no pod's queue times the total speed exceeds its speed times N + k - 1. |
| `LMetric.Book.Select` | pkg/utils/kvcache.go:3401-3427 | One pass in any map order returns a pod for which (tokens outstanding + n) x (batch + 1) is least, where n is the whole part of tokens x (100 - hit) / 100, and of those one with the least batch size. |
| `LMetric.MinimalIsCheapest` | pkg/utils/kvcache.go:3405-3427 | Being minimal in the order of the code is exactly having the least product in those figures. |
| `LMetric.NewTokens` | pkg/utils/kvcache.go:3407-3407 | For every hit ratio 100 n <= tokens x (100 - hit) < 100 (n + 1). |
| `LMetric.Book.Score` | pkg/utils/kvcache.go:3392-3446 | Charges that pod and records that n for the request; without a candidate nothing changes. |
| `LMetric.Book.Decrement` | pkg/utils/kvcache.go:3450-3482 | Returns and removes the recorded amount and takes it off the pod; zero and no change for an unknown request. |
| `LMetric.Book.Rollback` | pkg/utils/kvcache.go:3496-3519 | Removes the record, gives a positive amount back to the pod, and reports whether it did. |
| `LMetric.SentinelSound` | pkg/utils/kvcache.go:3401-3427 | In every reachable state no accumulator is negative, so the scorer's -1 start value never hides a candidate. |
| `LMetric.BooksClose` | pkg/utils/kvcache.go:3392-3519 | When all calls are done and all records gone, a pod is still charged exactly what was stranded on it: nothing if every amount was taken in time, in particular with fresh ids and clean-ups after the take. |
| `TraceWindows.TracesConserved` | pkg/cache/cache_trace.go:35-119 | After every run, for each model and kind of count, the calls counted equal the published totals plus those of the open and the retired-but-unpublished windows. |
| `TraceWindows.CountedOnceInOwnModel` | pkg/cache/cache_impl.go:168-245 | A returned AddRequestCount or DoneRequestTrace is counted under exactly one term, in a window of its own model that is open or published; every published window shows exactly the calls counted under its term, and no term is published twice. |
| `TraceWindows.ReissuedTraceIsEmpty` | pkg/cache/trace.go:223-241 | In every reachable state a pooled trace has as many buckets as `numKeys` says, so the generator's conditional reset always yields an empty trace. |
| `TraceWindows.RecyclerPresent` | pkg/cache/trace.go:178-188 | Whatever is about to be recycled still has its recycler, so recycling never calls nil. |
| `TraceWindows.SkipTestSound` | pkg/cache/cache_trace.go:83-94 | In every reachable state, if the counter is zero and nobody is between storing a window and counting it, the live map is empty, however many compare-and-swaps fail; so the ticker's skip loses no window. |
| `TraceWindows.ResetLeaves` | pkg/cache/cache_trace.go:84-94 | When the reset has succeeded, the counter is at most the number of windows counted since it was loaded, and exactly that number unless the compare-and-swap failed more than once: a second failure forgets what the first had found. |
| `TraceWindows.LockHoldersExact` | pkg/cache/trace.go:124-148 | In every reachable state the goroutines recorded in a trace's read lock are exactly those between the two updates of a DoneRequestTrace on it. |
| `TraceWindows.ReturnedExactly` | pkg/cache/cache_impl.go:168-245 | In every reachable state a step ends an AddRequestCount or DoneRequestTrace exactly when it records the call as returned; so no such call ends uncounted. |
| `TraceWindows.ReissueExact` | pkg/cache/trace.go:223-241 | In every reachable state, the reissue of a pooled trace has a continuation in which a returned call is counted in no open or published window of its model, if and only if some caller that holds the trace still has an AddRequestCount or DoneRequestTrace to count on it (given one more goroutine free to make a request). |
| `TraceWindows.PooledAndHeldReached` | pkg/cache/cache_trace.go:96-106 | For every model a run from the start that publishes and pools a trace while the caller that opened it still has its request to count, so that reissuing it to another caller could lose that request. |
| `RequestTraces.RequestTrace.AddRequest` | pkg/cache/trace.go:88-97 | Has the effect of the machine's visit: counts one request and succeeds exactly if the trace was not recycled. |
| `RequestTraces.RequestTrace.AddToBucket` | pkg/cache/trace.go:196-206 | Adds exactly one to the key's bucket and counts the key on its first hit, as the machine's two steps do. |
| `RequestTraces.RequestTrace.DoneRequestTrace` | pkg/cache/trace.go:124-148 | Fails without effect on a recycled trace, otherwise is the machine's visit and counts a completion of the current term. |
| `RequestTraces.RequestTrace.ToMapLocked` | pkg/cache/trace.go:158-170 | The published map is every bucket with its count, version 3, interval 10, precision 10, the request total and the pending requests, under keys that do not collide; buckets and total are those of the machine's window. |
| `RequestTraces.RequestTrace.RecycleLocked` | pkg/cache/trace.go:178-182 | Takes the recycler away and keeps every figure. |
| `RequestTraces.RequestTrace.Reissue` | pkg/cache/trace.go:229-240 | Is the machine's reissue of the pooled object under a new term. |
| `Registries.Registry.Store` | pkg/utils/registry.go:81-97 | Stores in the map and keeps the cached array a permutation of the values or invalid. |
| `Registries.Registry.Delete` | pkg/utils/registry.go:52-65 | Removes from the map and keeps the cached array a permutation of the values or invalid. |
| `Registries.Registry.Array` | pkg/utils/registry.go:105-121 | In every state the methods leave, the returned slice is a permutation of the map's values. |
| `Registries.Registry.Len` | pkg/utils/registry.go:140-154 | In every state the methods leave, the result is the map's size. |
| `Registries.Registry.UpdateArray` | pkg/utils/registry.go:164-178 | Rebuilds exactly when the cache is invalid and the map was made, into the old backing array if that is large enough, and then keeps what lies beyond the values. |
| `Registries.PodRegistry.Array` | pkg/utils/registry.go:123-138 | The cached or rebuilt PodArray is a permutation of the map's values and its index, if it has one, is right. |
| `Registries.PodRegistry.Store` | pkg/utils/registry.go:99-103 | Drops the cached PodArray and stores in the embedded registry. |
| `Registries.PodRegistry.BaseArray` | pkg/utils/registry.go:105-121 | A rebuild requested through the embedded registry is right and leaves the cached PodArray right. |
| `Registries.PodRegistry.ListByIndex` | pkg/utils/pod_array.go:52-62 | In every state the methods leave, the result is exactly the stored pods of the deployment when pods of one name share a deployment, and the registry stays right although its array is sorted. |
| `Registries.PodRegistry.IndexCurrent` | pkg/utils/pod_array.go:52-62 | The same for a PodArray the registry handed out earlier, as long as it is the cached one. |
| `Registries.PodRegistry.OlderSnapshotExact` | pkg/utils/pod_array.go:98-100 | Indexing an older snapshot of the same array leaves the registry right in every order the sort may choose, if and only if the snapshot is no longer than the current array or every pod beyond the current ones has a larger class than every different current one. |
| `Registries.PodRegistry.IndexOlder` | pkg/utils/pod_array.go:52-62 | Indexing such a harmless snapshot on the heap leaves the current array right, and its index too if the snapshot is no longer than it or its names are consistent. |
| `Registries.StaleSnapshotSpoils` | pkg/utils/registry.go:63-63 | A run (store four pods, read, delete two, read, index the first snapshot) after which, in every order the map and the sorts choose, the array handed out does not hold the map's pods. |
| `PodArrays.PodArray.InitDeployments` | pkg/utils/pod_array.go:76-123 | Permutes the slice in place; the index's slices are contiguous, disjoint, cover the slice and hold exactly the deployments' pods if and only if pods of one name share a deployment. |
| `PodArrays.PodArray.ListByIndex` | pkg/utils/pod_array.go:52-62 | Returns one contiguous slice, holding exactly the pods labelled with the deployment when pods of one name share a deployment, and sorts only its own part of the array. |
| `PodArrays.PodArray.Indexes` | pkg/utils/pod_array.go:64-74 | For every non-empty array, whether or not pods of one name share a deployment, the names returned include the deployment of every pod if and only if all pods have the same one; and every name is some pod's deployment. |
| `PodArrays.Split` | pkg/utils/pod_array.go:102-118 | Cuts a sorted slice into whole classes, each deployment's pods exactly when classes are deployments; the collected names are the slice order without its first and with its last twice. |
| `PodArrays.NamesComplete` | pkg/utils/pod_array.go:108-118 | Names that drop the first cut and repeat the last, of no more cuts than there are deployments, cover every pod's deployment if and only if all pods have the same one. |
| `PodArrays.SortByClassSorts` | pkg/utils/pod_array.go:98-100 | The sort orders the pods by class and permutes them. |
| `PodArrays.ClassesFaithful` | pkg/utils/pod_array.go:85-97 | With consistent names two pods have the same class exactly when they have the same deployment. |
| `Snapshots.SortKeepsFront` | pkg/utils/pod_array.go:98-100 | The first n pods survive every order the sort may choose if and only if every later pod has a larger class than every different one among them. |
| `Snapshots.HarmlessExact` | pkg/utils/pod_array.go:98-100 | The same for a current slice and an older one of any length on one array. |
| `Snapshots.IndexKept` | pkg/utils/pod_array.go:98-118 | Sorting a harmless older snapshot keeps the current slice's index exact, position by position. |
| `CacheSpec.HandleRefines` | pkg/cache/informers.go:91-325 | Every informer handler keeps the two indexes mirrored and is the matching set operation on the pods and the relation "serves". |
| `CacheSpec.EventEffect` | pkg/cache/informers.go:91-325 | For every event, pod name and model, whether the pod serves the model afterwards and which object is held under the name, read off the event's labels and lists alone: the model label, the Ray worker label of either object of an update, the names and instances; nothing else changes. |
| `CacheSpec.EventsRefine` | pkg/cache/informers.go:91-325 | After every sequence of events the cache is the set of pods and relation the events amount to: m is in p's models iff p is in m's pods, a model entry exists iff it has a pod, and every listed pod object is the one held by name. |
| `CacheSpec.QueriesAgree` | pkg/cache/cache_impl.go:70-117 | A model is known iff some pod serves it, and its pods are exactly those that do. |
| `CacheSpec.UnlinkRefines` | pkg/cache/informers.go:309-325 | Deleting a mapping on both sides removes exactly that pair, and the model with its last pod. |
| `CacheSpec.LinkRefines` | pkg/cache/informers.go:276-299 | Adding a mapping adds exactly that pair if the pod is known and changes nothing otherwise. |
| `CacheSpec.RemoveRefines` | pkg/cache/informers.go:193-199 | Deleting a pod removes it and exactly its pairs, whatever the order of its models. |
| `PodTables.PodTable.Add` | pkg/cache/informers.go:260-274 | A known pod keeps its object; a new one takes the spare. Afterwards no two entries, nor an entry and the spare, share an entry object, a registry or its array, and the spare's registry is empty. |
| `PodTables.PodTable.AddModel` | pkg/cache/informers.go:297-297 | Storing in one pod's registry, into its own array or a fresh one, changes what that pod shows and no other entry. |
| `PodTables.PodTable.Remove` | pkg/cache/informers.go:301-304 | The entry taken out shares nothing with those left, so reading its registry afterwards cannot disturb them. |
| `PodTables.PodTable.ListRemoved` | pkg/cache/informers.go:136-138 | The array of the removed entry's registry lists each of its models once and leaves the table as it is. |
| `ModelTables.ModelTable.Ensure` | pkg/cache/informers.go:287-295 | A model that was not there takes the spare and appears with no pods; registries, arrays and cached PodArrays stay unshared, spare included. |
| `ModelTables.ModelTable.AddPod` | pkg/cache/informers.go:298-298 | Storing in one model's registry changes what that model shows and no other entry. |
| `ModelTables.ModelTable.RemovePod` | pkg/cache/informers.go:319-319 | Deleting from one model's registry changes what that model shows and no other entry. |
| `ModelTables.ModelTable.IndexCurrent` | pkg/utils/pod_array.go:52-62 | Indexing one model's current PodArray lists that deployment's pods and leaves every entry right. |
| `ModelTables.ModelTable.IndexOlder` | pkg/utils/pod_array.go:52-62 | Indexing a stale PodArray that still shares a model's backing array leaves every entry right if it was indexed before, is no longer than the current one, or is harmless with consistent names. |
| `CacheStore.Store.AddPodLocked` | pkg/cache/informers.go:260-274 | On the cache, adds the pod unless it is known; the two tables share no object. |
| `CacheStore.Store.LinkLocked` | pkg/cache/informers.go:286-299 | Links pod and model in both registries, in the order of the source; every object the cache holds was held before or is new. |
| `CacheStore.Store.UnlinkLocked` | pkg/cache/informers.go:309-325 | Unlinks on the heap, removing a model entry with its last pod. |
| `CacheStore.Store.RemovePodLocked` | pkg/cache/informers.go:193-199 | The deletion and the loop over the array of the removed entry's registry remove the pod and its pairs. |
| `CacheStore.Store.OnUpdatePod` | pkg/cache/informers.go:115-158 | The update handler's heap effect is the specified change of the view, for every combination of labels, workers and presence. |
| `CacheStore.Store.OnEvent` | pkg/cache/informers.go:91-258 | Every handler's heap effect is the specified change of the view, and the heap objects stay separate. |
| `CacheStore.Store.HasModel` | pkg/cache/cache_impl.go:95-99 | True exactly if some pod serves the model. |
| `CacheStore.Store.ListPodsByModel` | pkg/cache/cache_impl.go:70-77 | The PodArray the model's registry caches, a permutation of the pods that serve the model, or an error exactly if there is none. |
| `CacheStore.Store.IndexReturned` | pkg/utils/pod_array.go:52-62 | Indexing a PodArray the cache handed out, while it is current, gives exactly the pods of the deployment that serve the model and leaves the cache right. |
| `CacheStore.Store.IndexSnapshot` | pkg/utils/pod_array.go:52-62 | Indexing one handed out before the model's registry changed leaves the cache right under the condition of `ModelTables.ModelTable.IndexOlder`. |
| `CacheStore.Store.ListPodsByDeployment` | pkg/cache/cache_impl.go:70-77 | Both calls together: exactly the pods of the deployment that serve the model, or an error exactly if no pod serves it. |
| `CacheStore.ServedConsistently` | pkg/cache/informers.go:269-269 | Pods are kept under their own names, so such an array is one whose deployments can be listed exactly. |
| `CacheStore.Store.ListModelsByPod` | pkg/cache/cache_impl.go:110-117 | The registry's array, each model the pod serves once, or an error exactly if the pod is unknown. |
| `CacheStore.Store.OnCall` | pkg/cache/cache_impl.go:70-117 | A query leaves the view as it is and is answered by the relation; an event has its specified effect. |
| `CacheStore.Replay` | pkg/cache/informers.go:91-325 | A cache started empty, after any events and queries in any order, shows exactly the pods and relation the events amount to, and every query in between was answered by the relation of the events before it. |
| `ModelAdapters.AtMostOne` | pkg/controller/modeladapter/modeladapter_controller.go:328-459 | From a new adapter, every run of reconciles with arbitrary answers and disturbances keeps at most one instance and at most one address in the slice, with a Scheduled condition for an instance and a Ready condition that is True for phase Running. |
| `ModelAdapters.RunningMeansLoaded` | pkg/controller/modeladapter/modeladapter_controller.go:531-569 | Whatever the calls answer, a reconcile that moves the adapter to Running found its pod going away, or the server listing the adapter, or loaded it there; and it leaves the service, a slice that names the pod's address, and Ready True. |
| `ModelAdapters.LoadedAfter` | pkg/controller/modeladapter/modeladapter_controller.go:531-569 | The loaded set grows by the pod's address exactly if the instance is usable, its server was asked and lacked the adapter, and the load succeeded. |
| `ModelAdapters.LoadingReported` | pkg/controller/modeladapter/modeladapter_controller.go:408-423 | If the target read, the model list or the load fails, the verdict is an error, the status becomes Bound with Bound False if it can be written, and nothing else changes. |
| `ModelAdapters.ResourceReported` | pkg/controller/modeladapter/modeladapter_controller.go:425-446 | If the service or the slice cannot be read or written, the verdict is an error, the slice is as it was, and the status becomes ResourceCreated with ResourceCreated False if it can be written, else what a failed create wrote before. |
| `ModelAdapters.SliceAfter` | pkg/controller/modeladapter/modeladapter_controller.go:770-930 | After a reconcile without an error the slice names, of every address: none without an instance or pod; only the pod's if it did not name it; otherwise what it named, less the pod's own address if the pod is going away. |
| `ModelAdapters.PhaseAfter` | pkg/controller/modeladapter/modeladapter_controller.go:448-459 | The phase, the Ready condition and the verdict of such a reconcile, also when the status cannot be written. |
| `ModelAdapters.StaleDropped` | pkg/controller/modeladapter/modeladapter_controller.go:345-380 | An instance that is gone, unlabelled, not ready or going away is dropped, with phase Pending, Failed True, Scheduled and Ready False; a missing condition crashes, a failed write is an error, and neither changes anything. |
| `ModelAdapters.ScheduledOnActive` | pkg/controller/modeladapter/modeladapter_controller.go:383-406 | Without an instance a listed pod that is ready and not going away becomes the only one, with phase Scheduled and Scheduled True; a failed pick or write changes nothing. |
| `ModelAdapters.FirstAndFailedReads` | pkg/controller/modeladapter/modeladapter_controller.go:330-339 | The first reconcile sets Pending and Initialized Unknown and requeues; a failed read of the pod or the pod list is an error that changes nothing. |
| `ModelAdapters.Converges` | pkg/controller/modeladapter/modeladapter_controller.go:328-459 | With some matching ready pod, a cluster that stays and calls that succeed, three reconciles from any state of such a run reach Running and Ready on a usable pod with the adapter loaded there and the slice naming exactly its address, if and only if the adapter is not wedged. |
| `ModelAdapters.SettledStays` | pkg/controller/modeladapter/modeladapter_controller.go:448-459 | From there a reconcile changes nothing. |
| `ModelAdapters.WedgedStays` | pkg/controller/modeladapter/modeladapter_controller.go:473-498 | A wedged adapter (unusable instance, no Ready condition) crashes every reconcile and changes nothing. |
| `ModelAdapters.WedgeReached` | pkg/controller/modeladapter/modeladapter_controller.go:473-498 | A run from a new adapter reaches a wedged state while another pod is usable. |
| `ModelAdapters.DetachedExact` | pkg/controller/modeladapter/modeladapter_controller.go:893-914 | Removing a deleted pod's address removes that address from the slice and no other. |
| `ModelAdapters.WithoutExact` | pkg/controller/modeladapter/utils.go:80-88 | Removing a name from the instance list removes exactly that name. |
| `ModelAdapters.RemoveInstanceFromList` | pkg/controller/modeladapter/utils.go:80-88 | The loop keeps the other names in order. |
| `ModelAdapters.FindAddress` | pkg/controller/modeladapter/modeladapter_controller.go:855-867 | The nested loop with its breaks finds the address exactly if some endpoint has it. |
| `ModelAdapters.Detach` | pkg/controller/modeladapter/modeladapter_controller.go:893-914 | The nested loop drops the address everywhere and the endpoints it leaves empty. |
| `ModelAdapters.Reconciler.ClearInstanceList` | pkg/controller/modeladapter/modeladapter_controller.go:473-498 | Drops the stale name and lowers the conditions, or crashes before writing anything if one is missing. |
| `ModelAdapters.Reconciler.ReconcileLoading` | pkg/controller/modeladapter/modeladapter_controller.go:531-569 | Loads the adapter at the pod's address unless it is there already, no instance exists or the pod is going away; fails on any failed call. |
| `ModelAdapters.Reconciler.ReconcileEndpointSlice` | pkg/controller/modeladapter/modeladapter_controller.go:770-930 | Creates, overrides, keeps, clears or trims the slice and sets the phase as specified for every answer of every call. |
| `ModelAdapters.Reconciler.DoReconcile` | pkg/controller/modeladapter/modeladapter_controller.go:328-459 | One reconcile on the stored status, the slice, the service and the loaded set is the specified step for every answer of every call. |
| `MetricsTracker.PruningInvisible` | pkg/utils/kvcache.go:365-391 | For every run of Init, Add and Cleanup and every query start none of a pod's prunings passed, the pod's details equal those over the never-pruned history without placeholders. |
| `MetricsTracker.LastAddDecides` | pkg/utils/kvcache.go:484-496 | With a clock that does not run backwards and no cleanup, that condition is: start at or after the pod's last add minus twice the window. |
| `MetricsTracker.EarlierStartSees` | pkg/utils/kvcache.go:484-496 | For every window there is a run, with samples stamped no later than their adds and a forward clock, and an earlier start where the details differ. |
| `MetricsTracker.SummaryOfCounted` | pkg/utils/kvcache.go:552-584 | A sample with neither figure changes no statistic. |
| `MetricsTracker.PercentileMonotone` | pkg/utils/kvcache.go:498-519 | On sorted values the percentile never decreases in p, is the least value at 0 and the greatest at 100, and never indexes out of range. |
| `MetricsTracker.PercentileInterpolates` | pkg/utils/kvcache.go:498-519 | With p (n - 1) = 100 k + f the percentile is the value at k for f = 0, else the point that divides the values at k and k + 1 as f to 100 - f, cut toward zero. |
| `MetricsTracker.EquallySpaced` | pkg/utils/kvcache.go:517-518 | Equally spaced values whose exact percentile is whole return it. |
| `MetricsTracker.LatencyOrdered` | pkg/utils/kvcache.go:586-606 | For every non-empty sample list Min and Max are the extreme samples, Min <= P50 <= P90 <= P95 <= P99 <= Max and Min <= Avg <= Max. |
| `MetricsTracker.SummaryDescribes` | pkg/utils/kvcache.go:552-606 | Every figure in terms of the samples after the start: sample counts, mean, extremes and interpolated percentiles of the positive TTFTs and TPOTs, the different first-token times, the prefill tokens of first tokens, and -1 throughout without a sample. |
| `MetricsTracker.QueryDescribes` | pkg/utils/kvcache.go:521-612 | The same for every pod of a query. |
| `MetricsTracker.AddDescribed` | pkg/utils/kvcache.go:378-391 | An add keeps, in order, exactly the pod's samples and the new one that are younger than twice the window, under the address without a final colon, and changes no other pod. |
| `MetricsTracker.CleanupDescribed` | pkg/utils/kvcache.go:436-461 | A cleanup keeps, in order, exactly the samples younger than the window, or one placeholder if there are none. |
| `MetricsTracker.InitDescribed` | pkg/utils/kvcache.go:365-376 | A placeholder under the address without a final colon, only if that is new. |
| `MetricsTracker.PercentileOf` | pkg/utils/kvcache.go:498-519 | The branches for no value, one value, an exact rank and interpolation give the percentile of the sorted values. |
| `MetricsTracker.Summarise` | pkg/utils/kvcache.go:558-606 | One pass collects both sample lists, sums, distinct first-token times and token totals of the window. |
| `MetricsTracker.PodMetricsTracker.AddPodMetric` | pkg/utils/kvcache.go:378-391 | Appends to the trimmed key and prunes that pod to twice the window. |
| `MetricsTracker.PodMetricsTracker.InitPodKey` | pkg/utils/kvcache.go:365-376 | Adds a placeholder under the trimmed key only if the key is new. |
| `MetricsTracker.PodMetricsTracker.CleanupAllMetrics` | pkg/utils/kvcache.go:436-461 | Prunes every pod to the window and leaves a placeholder where nothing is left. |
| `MetricsTracker.PodMetricsTracker.GetDetailedMetrics` | pkg/utils/kvcache.go:521-612 | Gives every known pod the summary of its samples after the start. |
| `Histograms.GetPercentile` | pkg/metrics/types.go:169-218 | Fails exactly on a percentile outside 0..100 or an unparsable bound; otherwise returns the least finite bound whose share reaches the percentile, else the greatest finite bound if the infinite bucket reaches it, else 0. |
| `Histograms.ReachIff` | pkg/metrics/types.go:207-207 | A bucket reaches the percentile exactly if a hundred times its count is at least the percentile of the total; with no sample in total, exactly if its count is positive. |
| `Histograms.OneAnswer` | pkg/metrics/types.go:181-203 | At most one value fits that description, so the map's order cannot show. |
| `Histograms.Monotone` | pkg/metrics/types.go:205-217 | A higher percentile never gives a smaller answer, if and only if there is no sample, some bucket holds every sample, or the fullest bucket's answer is not positive. |
| `Histograms.PositiveBounds` | pkg/metrics/types.go:205-217 | With a finite bucket, positive bounds and counts that are not negative: if and only if some bucket holds every sample. |
| `Histograms.DropsWithoutInfinite` | pkg/metrics/types.go:205-217 | An input with no full bucket whose higher percentile gives 0. |
| `RoutingContexts.WriteOnce` | pkg/types/router_context.go:70-90 | Under every interleaving, in every run whose reuses find no call under way, no channel is closed twice and every TargetPod result is the value of the first SetTargetPod or Delete of the reader's own use, set by a call of that use, never the sentinel. |
| `RoutingContexts.ReuseExact` | pkg/types/router_context.go:125-136 | In every state that runs with either guard reach with the context pooled, every continuation of the new use keeps each result a value set by a call of the reader's own use (with no double close and no sentinel), if and only if no call of the old use is under way. |
| `RoutingContexts.OtherUsesPod` | pkg/types/router_context.go:75-79 | For every pod a run that meets the weaker guard of `RoutingContexts.ResetExact`, in which a setter of the first use swaps after the reuse and a reader of the second use, which has set nothing, returns its pod. |
| `RoutingContexts.NeverSentinel` | pkg/types/router_context.go:70-90 | In every run whose reuses meet that weaker guard, no channel is closed twice and no TargetPod returns the sentinel. |
| `RoutingContexts.CrashExact` | pkg/types/router_context.go:70-79 | A run closes a closed channel if and only if two of its closes have no reset between them, however calls interleave. |
| `RoutingContexts.FlagsExact` | pkg/types/router_context.go:125-136 | After every run the context is pooled exactly if the last use was put back, and deleted exactly if a Delete of the last use began. |
| `RoutingContexts.ResetExact` | pkg/types/router_context.go:125-136 | In every state such a run reaches with the context pooled, every continuation of the new use is free of double closes and sentinel results, if and only if no call is between swap and close, blocked on the old channel or about to reload. |
| `RoutingContexts.DeleteReturnsSentinel` | pkg/types/router_context.go:70-73 | A run in which Delete releases a reader, the context is reused and the reader returns the sentinel. |
| `RoutingContexts.WaitersWake` | pkg/types/router_context.go:81-90 | Once a value is set, a waiting TargetPod can go on, at the latest after the setter's pending close. |
| `RoutingContexts.EarlyResetReturnsSentinel` | pkg/types/router_context.go:75-79 | A run in which a setter closes the channel of the next use, whose reader then returns the sentinel. |
| `LogFrame.RoundTrip` | benchmarks/data-driven-routing/training/preprocess.py:24-52 | For every marker-free header and fields of one line without '@', parsing the printed line gives the names in order as columns and a row with every field and nothing else, the newline stuck to the last value, if and only if no token ending in two stars is followed by the tag and another token and fields of one name read to one value. |
| `LogFrame.FileRoundTrip` | benchmarks/data-driven-routing/training/preprocess.py:20-52 | Writing any records to a file and reading it back gives one row per record holding every field, if and only if each record's own line returns; one bad line fails the file. |
| `LogFrame.FileColumns` | benchmarks/data-driven-routing/training/preprocess.py:33-53 | The columns of a file that comes back are the names of its last record. |
| `LogFrame.LinesOfFile` | benchmarks/data-driven-routing/training/preprocess.py:23-23 | Reading by lines undoes writing the records one after another. |
| `LogFrame.ParseFile` | benchmarks/data-driven-routing/training/preprocess.py:20-53 | The loop over the lines gives the rows and the last line's columns, and fails on an empty file and on any bad line. |
| `LogFrame.FileFails` | benchmarks/data-driven-routing/training/preprocess.py:20-53 | A file fails exactly if it is empty or one of its lines fails. |
| `LogFrame.DictHolds` | benchmarks/data-driven-routing/training/preprocess.py:31-51 | The dictionary filled from the tokens holds every field if and only if fields of one name read to one value. |
| `LogFrame.RepeatedName` | benchmarks/data-driven-routing/training/preprocess.py:31-51 | Every line of two fields with one name and different values does not parse back. |
| `LogFrame.NamesDecide` | pkg/utils/kvcache.go:3275-3275 | Distinct field names other than the tag that do not end in two stars are enough for the line to parse back, whatever the values. |
| `LogFrame.GeneratedLinesParse` | pkg/utils/kvcache.go:3275-3298 | Every line in the gateway's own layout parses back to its fields. |
| `LogFrame.AmbiguousLine` | benchmarks/data-driven-routing/training/preprocess.py:28-29 | Every line with a value ending in two stars before a field named after the tag does not parse back to its fields. |
| `LogFrame.IntegersReturn` | benchmarks/data-driven-routing/training/preprocess.py:44-46 | Every decimal integer comes back as the same integer, with or without the newline after it. |
| `LogFrame.SplitJoin` | benchmarks/data-driven-routing/training/preprocess.py:30-30 | Splitting at '@' undoes joining with '@'. |
| `LogFrame.JoinSplit` | benchmarks/data-driven-routing/training/preprocess.py:30-30 | Joining undoes splitting, and no part contains '@'. |
| `LogFrame.ParseCases` | benchmarks/data-driven-routing/training/preprocess.py:25-30 | For every line which text is split: none without the tag, or with `**@` and no marker; the whole line without `**@`; otherwise what lies between the first marker and the second or the end. |
| `LogFrame.LinesExact` | benchmarks/data-driven-routing/training/preprocess.py:23-23 | For every file the lines put together are the file, and each ends at its only newline or at the end of the file. |
| `LogFrame.ReadExact` | benchmarks/data-driven-routing/training/preprocess.py:38-51 | Every value is JSON exactly between braces, otherwise the whole number it spells (blanks, a sign, digits with single underscores between them, blanks), otherwise its text. |
| `LogFrame.ParseLine` | benchmarks/data-driven-routing/training/preprocess.py:23-51 | The loop over pairs of parts gives the columns and the dictionary, a later value of a name overwriting an earlier one, and fails on a missing tag, a missing marker or an odd number of parts. |

## Left out

- Integer widths and floating point: int32/int64 sums, MOONCAKE quotients, averages and interpolation are exact here; overflow and rounding are not modelled.
- LMetric.Book.Select: which of several pods with equal score and batch size wins depends on Go's map order and is left open; token counts and batch sizes are non-negative and hit ratios lie in 0..100.
- TraceWindows.TracesConserved: the lookup in the window map is one step, and terms are distinct; the completed-requests counter of a trace is not in the machine because nothing reads it, and the pending and running request gauges are not claimed to be non-negative.
- RequestTraces.RequestTrace.ToMapLocked: bucket keys are opaque strings, so the float log2 that computes them is not modelled; they are required to differ from the metadata keys, which contain no colon in the source.
- RoutingContexts.WriteOnce: states its result for reuses that find no call under way, because RoutingContexts.ReuseExact shows it false for all others; other fields of the context are not modelled.
- ModelAdapters.Converges: selectors use match labels only; deletion with finalizers, which pod the scheduler prefers, and what triggers the next reconcile are not modelled; the slice and the service are read as they are or the call fails.
- MetricsTracker.PodMetricsTracker.AddPodMetric: an empty address, on which the source crashes, is excluded; the request id and decode count of a sample are dropped because no statistic reads them.
- Registries.Registry.Array: writes a caller might make through a slice handed out earlier are not modelled; sorting through an older PodArray, which the code does itself, is.
- CacheStore.Store.OnEvent: the two maps are plain maps with LoadOrStore and LoadAndDelete as single steps, since the handlers run under the cache's lock; each is kept in a table together with its spare, which the source keeps as fields of the cache.
- Histograms.Monotone: a negative total count is not considered.
- Histograms.GetPercentile: bounds that parse to an infinity or to not-a-number are not modelled.
- LogFrame.ParseLine: JSON decoding and floats are not modelled (both are kept as text, so two spellings of one number count as two values, and a JSON text that does not decode is kept where the script drops it), nor are whitespace and digits beyond ASCII.
- LogFrame.ParseFile: what the data frame makes of the rows and columns, and carriage returns, which also end a line, are not modelled.
- TraceWindows.ReissueExact: the set of goroutines is fixed in a run, so the lemma asks for one that is idle.
- Concurrent use of the registries, the cache handlers and the tracker: their methods run one at a time, as under their locks.
- HTTP, Redis, Prometheus, Kubernetes client and informer wiring, configuration and logging: plumbing that appears only as answers, environment steps or a published window.
- The other routing algorithms, the reward predictor, metric scraping, the KV-cache controller, the autoscaler and the benchmark scripts: not part of this core.
