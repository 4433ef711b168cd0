# SampleResource controller, modelled in Dafny

A model of the reconciliation core of `crd-controller-sample`, a controller for
the `SampleResource` custom resource. Every `SampleResource` carries a spec
with a `name` and a status with a `name`. The controller keeps the status
mirroring the spec:

- an informer notification (add or update) turns into a key `namespace/name`
  that is put on a rate-limited work queue;
- a worker takes keys off the queue one at a time and runs `syncHandler` on
  each;
- `syncHandler` looks the object up in the informer's cache and writes a copy
  whose `status.name` is set to `spec.name`, then records a `Normal`/`Synced`
  event;
- depending on the outcome, the worker either `Forget`s the key or puts it back
  with `AddRateLimited`, and always marks it `Done`.

The model is purely functional. The collaborators the controller only calls
are parameters:

- the key splitter (`cache.SplitMetaNamespaceKey`) and the key function
  (`cache.MetaNamespaceKeyFunc`) are partial functions returning an `Option`;
- the lister's cached view is a map from (namespace, name) to a lookup result,
  and a pair missing from the map reads as not-found;
- the API server's answer to the status write is an `Option<ApiError>`.

What the controller does to the outside world is returned as an ordered trace:
cache lookups, status writes and events for a sync, and `Add`,
`AddRateLimited`, `Forget` and `Done` calls for the work queue.

Files:

- `api_types.dfy` (module `ApiTypes`): the resource, its spec, status and
  metadata; the API errors; `Option` and `Result`.
- `sync.dfy` (module `Sync`): `syncHandler` and `updateSampleResourceStatus`,
  with lemmas about error classification, the shape of the write and
  re-syncing.
- `worker.dfy` (module `Worker`): `processNextWorkItem`, the `runWorker` loop
  (a recursive reference definition plus a loop method proved equal to it),
  `enqueueSampleResource` and the informer handlers.
- `controller.dfy` (module `Controller`): end-to-end lemmas joining
  notification, queue handling and sync.

Behaviour of controller.go worth noting, all of it modelled as written:

- Notifications are enqueued with `AddRateLimited`, not `Add`.
- Every successful sync records a `Synced` event, re-syncs of an unchanged
  object included. Nothing in the controller suppresses the repeat.
- The write is unconditional. An object whose status already mirrors its
  spec is written again unchanged, and no no-op short-circuit exists.
- The write goes through the resource's plain `Update` call with the whole
  copied object, not through a status-subresource call. The copy differs from
  the cached object only in its status, and that is what the model states.

## Model

| member | source | states |
|---|---|---|
| Sync.UpdatedCopy | controller.go:206-208 | the object sent to the server agrees with the cached object on type, metadata and spec, has a status mirroring the spec, and equals the cached object when that object was already reconciled |
| Sync.UpdateSampleResourceStatus | controller.go:206-210 | one `Update` into the object's own namespace, of an object that differs from the cached one only in a status equal to its spec name; the server's answer is returned unchanged |
| Sync.SyncHandler | controller.go:175-204 | a malformed key gives success with no effects; otherwise exactly one lookup comes first; a not-found lookup gives success and any other lookup error is returned, in both cases with nothing more; an empty spec name gives success with no write; otherwise exactly one write of the updated copy; the Synced event is recorded once, after the write, if and only if the write succeeded; a failed write's error is returned |
| Sync.SyncErrorsAreRetryable | controller.go:175-204 | a sync returns an error exactly when the lookup failed with something other than not-found, or the write was attempted and failed |
| Sync.SyncWritesOnlyStatus | controller.go:197-210 | every write in a sync's trace targets the object's own namespace and changes nothing but the status, which it sets to the spec name |
| Sync.SyncRewritesReconciledObject | controller.go:197-210 | an object whose status already mirrors its spec is still written, unchanged |
| Sync.ResyncRepeatsSameWrite | controller.go:191-210 | after a successful sync, syncing again with the written object in the cache issues the identical write, and records the Synced event again exactly when that write succeeds |
| Worker.ProcessNextWorkItem | controller.go:131-162 | on shutdown the worker stops with no sync and no queue call; otherwise it continues, syncs exactly a string item's key, marks the item Done exactly once as the last call, requeues with AddRateLimited exactly when the sync failed and Forgets otherwise, and never calls plain Add |
| Worker.WorkerMarksEachItemDone | controller.go:126-162 | over a whole run, the number of Done calls equals the number of items taken before the first shutdown, and the worker stops exactly when a shutdown was reported |
| Worker.WorkerSyncsServedKeys | controller.go:126-146 | the keys synced over a run are exactly the string items taken before the first shutdown, in order |
| Worker.WorkerDecidesEachTurn | controller.go:126-162 | over a run, the i-th item taken before shutdown accounts for exactly two calls: first AddRateLimited if it is a key whose sync failed on that very turn and Forget otherwise, then Done; there are no other calls, and plain Add is never called |
| Worker.RetryAfterFailure | controller.go:126-153 | a key whose sync fails on one turn is requeued with backoff and marked Done; taken again on a turn where its sync succeeds, it is forgotten and marked Done |
| Worker.ServedIsFirstShutdown | controller.go:131-135 | the number of items a worker takes is the position of the first `Get` that reports shutdown: every earlier answer is an item |
| Worker.RunWorker | controller.go:126-129 | the loop makes the same queue calls and syncs the same keys as the recursive reference definition, and stops for shutdown exactly when it does |
| Worker.EnqueueSampleResource | controller.go:164-173 | a failed key derivation makes no queue call; a derived key makes exactly one call, AddRateLimited of that key |
| Worker.OnAdd | controller.go:76-78 | an add notification makes no queue call when the object has no key, and exactly one AddRateLimited of its key otherwise |
| Worker.OnUpdate | controller.go:79-81 | an update notification makes no queue call when the new object has no key, and exactly one AddRateLimited of the new object's key otherwise; the old object does not appear in the outcome |
| Controller.RequeueExactlyOnRetryableError | controller.go:131-204 | a dequeued key ends in AddRateLimited then Done exactly when its lookup failed with something other than not-found or its write failed, and in Forget then Done otherwise |
| Controller.CreatedObjectIsSynced | controller.go:164-210 | a created object with a spec name and a successful write is enqueued, synced with lookup, status write and Synced event in that order, and forgotten |
| Controller.DeletedObjectIsForgotten | controller.go:182-187 | a key whose object is gone from the cache syncs successfully with a lookup only, and is forgotten rather than requeued |
| Controller.RetriedKeyIsForgottenOnceSynced | controller.go:126-200 | a key whose write conflicts is requeued, and the same key taken again on a later turn whose write succeeds is forgotten; both turns sync it |
| Controller.ConflictIsRequeued | controller.go:146-200 | a conflicting write is returned as the sync's error, records no event, and puts the key back with AddRateLimited |

## Left out

- `NewController`: the wiring of the event broadcaster and recorder, scheme registration and the creation of the queue with `DefaultControllerRateLimiter` (controller.go:50-101). This is construction and I/O plumbing; only the two handlers it registers are modelled.
- `Run`: `WaitForCacheSync`, starting `threadiness` goroutines through `wait.Until`, and waiting on the stop channel (controller.go:103-124). This is concurrency and lifecycle. The worker is modelled sequentially over a scripted sequence of turns, each a `Get` answer paired with how `syncHandler` ends for each key at that moment.
- Worker.RunWorker: how the cache and the API server change between turns is not modelled; each turn carries its own sync outcomes as given data. Running out of scripted turns stands for a `Get` that is still blocked. The model does not cover `wait.Until` restarting `runWorker` every second after it returns.
- The work queue's internals: deduplication, dirty tracking, exponential backoff and its cap. That code is in client-go, which is not part of this model. Only the calls the controller makes are recorded.
- `cache.SplitMetaNamespaceKey` and `cache.MetaNamespaceKeyFunc`: client-go code, taken as parameters rather than re-derived.
- Logging through `runtime.HandleError` and `klog`. It has no effect on the controller's decisions.
- Panics inside a sync. The deferred `Done` would still run, but the model has no panics.
- The object the API server returns from `Update`. The controller discards it.
- `SampleResourceList`, the generated clientset, listers and informers, and the deep-copy code. These are generated code with no behaviour of their own. A deep copy is a value copy in the model.
- The unused constants `ErrResourceExists` and `MessageResourceExists` (controller.go:31-33).
